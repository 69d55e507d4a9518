// The message protocol shared by the streaming devices under
// octopus_sensing/devices (test device, Shimmer3, BrainFlow, LSL, Tobii
// glasses, Skinos, OpenBCI): each device process reads control messages from
// its queue while a streaming thread appends samples to an in-memory buffer.
// START and STOP leave a trigger string that the next sample carries; STOP
// (separated mode) and SAVE / TERMINATE (continuous mode) write the buffer to
// a CSV file.
//
// The devices differ only in a handful of choices, collected in `Config`.
// The state is given by the pure `Snapshot`; `Step` and `Sample` say what one
// message and one sample do to it, and the class `Recorder` is proved to
// follow them. CSV files are modelled as a ghost map from file name to rows.

module Recording {
  import opened Common
  import opened Messages

  // SavingModeEnum: the saving mode is a plain int in the source, and a value
  // other than these two falls through the branches that test for them.
  const CONTINUOUS: int := 0
  const SEPARATED: int := 1

  /**
   * A cell of a CSV row: an integer, a real number (a Python float, taken as
   * its exact value), text (a string, or a time stamp as csv writes it), or
   * None, which csv writes as an empty cell.
   */
  datatype Cell = Num(n: int) | Real(r: real) | Text(s: string) | Empty

  /** One CSV row: the cells of a sample, possibly followed by a trigger. */
  type Row = seq<Cell>

  /** The device's `_state`: "", "START" or "STOP". */
  datatype Phase = Idle | Started | Stopped

  datatype Config = Config(
    name: string,
    /** The device's output directory (output_path joined with the device name). */
    outputPath: string,
    savingMode: int,
    /** Remembers the last START / STOP in `_state` and ignores a repeat of it. */
    dedup: bool,
    /** Has a SAVE branch. */
    handlesSave: bool,
    /** Empties the buffer after writing the file of a separated-mode STOP. */
    clearsAfterSeparatedStop: bool,
    /** Leaves the message loop when the streaming thread has died. */
    watchesStream: bool,
    /** The header row written first into a file that does not exist yet. */
    header: Option<Row>,
    /** Every row ends with a trigger cell, None when no trigger is pending. */
    triggerColumn: bool
  )

  datatype Outcome = Continue | Exit | Crash(error: string)

  datatype Snapshot = Snapshot(
    phase: Phase,
    trigger: Option<string>,
    buffer: seq<Row>,
    /** None while the device has never assigned `_experiment_id`. */
    experimentId: Option<Value>,
    files: map<string, seq<Row>>,
    /** The streaming thread still appends samples. */
    running: bool
  )

  function Initial(initialExperimentId: Option<Value>): Snapshot
  {
    Snapshot(Idle, None, [], initialExperimentId, map[], true)
  }

  /** `__set_trigger`: "<type>-<experiment id>-<stimulus id padded to two digits>". */
  function TriggerText(m: Message): string
  {
    Str(m.msgType) + "-" + Str(m.experimentId) + "-" + ZFill(Str(m.stimulusId), 2)
  }

  /** The trigger of a message with string ids and a stimulus number below 100. */
  lemma TriggerOfStringIds(kind: string, experimentId: string, stimulus: nat)
    requires stimulus < 100
    ensures var t := TriggerText(Message(VStr(kind), VNone, VStr(experimentId), VInt(stimulus)));
      |t| == |kind| + |experimentId| + 4 &&
      t == kind + "-" + experimentId + "-" + [DigitChar(stimulus / 10), DigitChar(stimulus % 10)]
  {
    var s := IntToString(stimulus);
    if stimulus >= 10 {
      assert NatToString(stimulus / 10) == [DigitChar(stimulus / 10)];
      assert s == [DigitChar(stimulus / 10), DigitChar(stimulus % 10)];
    } else {
      assert s == [DigitChar(stimulus % 10)];
      assert ZFill(s, 2) == ['0'] + s;
    }
  }

  function SeparatedFile(cfg: Config, experimentId: Value, stimulusId: Value): string
  {
    cfg.outputPath + "/" + cfg.name + "-" + Str(experimentId) + "-" + Str(stimulusId) + ".csv"
  }

  function ContinuousFile(cfg: Config, experimentId: Value): string
  {
    cfg.outputPath + "/" + cfg.name + "-" + Str(experimentId) + ".csv"
  }

  /** `_save_to_file`: append the rows to the file, after the header when the file is new. */
  function Saved(cfg: Config, files: map<string, seq<Row>>, file: string, rows: seq<Row>): (r: map<string, seq<Row>>)
    ensures r.Keys == files.Keys + {file}
    ensures forall f :: f in files && f != file ==> r[f] == files[f]
  {
    var before := if file in files then files[file] else if cfg.header.Some? then [cfg.header.value] else [];
    files[file := before + rows]
  }

  /** START: set the experiment id and the trigger, unless a de-duplicating device is already started. */
  function OnStart(cfg: Config, s: Snapshot, m: Message): Snapshot
  {
    if cfg.dedup && s.phase == Started then s
    else
      s.(experimentId := Some(m.experimentId), trigger := Some(TriggerText(m)),
         phase := if cfg.dedup then Started else s.phase)
  }

  /**
   * STOP: in separated mode write the buffer to the stimulus's own file
   * (and empty it, on the devices that do); otherwise set the trigger.
   */
  function OnStop(cfg: Config, s: Snapshot, m: Message): Snapshot
  {
    if cfg.dedup && s.phase == Stopped then s
    else
      var phase := if cfg.dedup then Stopped else s.phase;
      if cfg.savingMode == SEPARATED then
        var file := SeparatedFile(cfg, m.experimentId, m.stimulusId);
        s.(experimentId := Some(m.experimentId), files := Saved(cfg, s.files, file, s.buffer),
           buffer := if cfg.clearsAfterSeparatedStop then [] else s.buffer, phase := phase)
      else
        s.(experimentId := Some(m.experimentId), trigger := Some(TriggerText(m)), phase := phase)
  }

  /** SAVE: in continuous mode flush the buffer into the experiment's file and empty it. */
  function OnSave(cfg: Config, s: Snapshot, m: Message): Snapshot
  {
    if cfg.savingMode == CONTINUOUS then
      var file := ContinuousFile(cfg, m.experimentId);
      s.(experimentId := Some(m.experimentId), files := Saved(cfg, s.files, file, s.buffer), buffer := [])
    else s
  }

  /** TERMINATE: in continuous mode write the buffer to the experiment's file; leave the loop. */
  function OnTerminate(cfg: Config, s: Snapshot): (Snapshot, Outcome)
  {
    if cfg.savingMode != CONTINUOUS then (s.(running := false), Exit)
    else if s.experimentId.None? then (s.(running := false), Crash("AttributeError"))
    else
      var file := ContinuousFile(cfg, s.experimentId.value);
      (s.(files := Saved(cfg, s.files, file, s.buffer), running := false), Exit)
  }

  /** What the message loop does with one message taken from the queue. */
  function Step(cfg: Config, s: Snapshot, msg: Option<Message>, streamAlive: bool): (Snapshot, Outcome)
  {
    if cfg.watchesStream && !streamAlive then (s.(running := false), Exit)
    else if msg.None? then (s, Continue)
    else if msg.value.msgType == VStr(START) then (OnStart(cfg, s, msg.value), Continue)
    else if msg.value.msgType == VStr(STOP) then (OnStop(cfg, s, msg.value), Continue)
    else if msg.value.msgType == VStr(SAVE) && cfg.handlesSave then (OnSave(cfg, s, msg.value), Continue)
    else if msg.value.msgType == VStr(TERMINATE) then OnTerminate(cfg, s)
    else (s, Continue)
  }

  /** The row a sample is stored as, with the pending trigger (if any) attached. */
  function Marked(cfg: Config, trigger: Option<string>, row: Row): Row
  {
    if cfg.triggerColumn then row + [if trigger.Some? then Text(trigger.value) else Empty]
    else if trigger.Some? then row + [Text(trigger.value)]
    else row
  }

  /** What the streaming thread does with one sample. */
  function Sample(cfg: Config, s: Snapshot, row: Row): Snapshot
  {
    if !s.running then s
    else s.(buffer := s.buffer + [Marked(cfg, s.trigger, row)], trigger := None)
  }

  /**
   * What the BrainFlow streaming thread does with one batch of records: all
   * are buffered, and the last one is extended with the time stamps and the
   * pending trigger.
   */
  function SampleBatch(cfg: Config, s: Snapshot, records: seq<Row>, stamp: Row): Snapshot
  {
    if !s.running || records == [] then s
    else
      var last := records[|records| - 1] + stamp;
      s.(buffer := s.buffer + records[..|records| - 1] + [Marked(cfg, s.trigger, last)], trigger := None)
  }

  function SampleAll(cfg: Config, s: Snapshot, rows: seq<Row>): Snapshot
    decreases |rows|
  {
    if rows == [] then s else SampleAll(cfg, Sample(cfg, s, rows[0]), rows[1..])
  }

  /** A sequence of messages handled one after the other, up to the first that ends the loop. */
  function StepAll(cfg: Config, s: Snapshot, msgs: seq<Message>): (Snapshot, Outcome)
    decreases |msgs|
  {
    if msgs == [] then (s, Continue)
    else
      var (t, out) := Step(cfg, s, Some(msgs[0]), true);
      if out.Continue? then StepAll(cfg, t, msgs[1..]) else (t, out)
  }

  /** `_get_realtime_data` / `_get_monitoring_data`: the last duration * rate rows. */
  function LatestRows(buffer: seq<Row>, duration: int, rate: int): seq<Row>
  {
    SliceFrom(buffer, -(duration * rate))
  }

  lemma LatestRowsAreTheNewest(buffer: seq<Row>, duration: int, rate: int)
    requires duration > 0 && rate > 0
    ensures var n := if duration * rate < |buffer| then duration * rate else |buffer|;
      LatestRows(buffer, duration, rate) == buffer[|buffer| - n..]
  {
    var k := duration * rate;
    ProductPositive(duration, rate);
    LastItems(buffer, k);
  }

  lemma ProductPositive(a: int, b: int)
    requires a > 0 && b > 0
    ensures a * b > 0
  {
  }

  /** A duration of zero returns the whole buffer, since -0 is 0 in a slice. */
  lemma LatestRowsOfZeroDuration(buffer: seq<Row>, rate: int)
    ensures LatestRows(buffer, 0, rate) == buffer
  {
  }

  // ---------------------------------------------------------------- properties

  /** Messages other than the four control words, and None, leave the device as it was. */
  lemma UnknownMessagesIgnored(cfg: Config, s: Snapshot, msg: Option<Message>, alive: bool)
    requires alive || !cfg.watchesStream
    requires msg.Some? ==> Kind(msg.value).None?
    ensures Step(cfg, s, msg, alive) == (s, Continue)
  {
  }

  /** A device that de-duplicates ignores a START while started and a STOP while stopped. */
  lemma RepeatIgnored(cfg: Config, s: Snapshot, m: Message)
    requires cfg.dedup
    requires (m.msgType == VStr(START) && s.phase == Started) || (m.msgType == VStr(STOP) && s.phase == Stopped)
    ensures Step(cfg, s, Some(m), true) == (s, Continue)
  {
  }

  /**
   * The trigger is attached to exactly one row: the first sample after it was
   * set carries it, and the samples after that do not.
   */
  lemma {:induction false} TriggerMarksFirstRow(cfg: Config, s: Snapshot, rows: seq<Row>)
    requires s.running && s.trigger.Some? && rows != [] && !cfg.triggerColumn
    ensures SampleAll(cfg, s, rows).buffer == s.buffer + [rows[0] + [Text(s.trigger.value)]] + rows[1..]
    ensures SampleAll(cfg, s, rows).trigger.None?
    ensures SampleAll(cfg, s, rows).files == s.files && SampleAll(cfg, s, rows).phase == s.phase
  {
    var t := Sample(cfg, s, rows[0]);
    assert t.buffer == s.buffer + [rows[0] + [Text(s.trigger.value)]];
    PlainRows(cfg, t, rows[1..]);
  }

  /** Without a pending trigger, samples are buffered as they are. */
  lemma {:induction false} PlainRows(cfg: Config, s: Snapshot, rows: seq<Row>)
    requires s.running && s.trigger.None? && !cfg.triggerColumn
    ensures SampleAll(cfg, s, rows) == s.(buffer := s.buffer + rows)
    decreases |rows|
  {
    if rows != [] {
      var t := Sample(cfg, s, rows[0]);
      PlainRows(cfg, t, rows[1..]);
      assert s.buffer + [rows[0]] + rows[1..] == s.buffer + rows;
    }
  }

  /** Recording one more sample after a run of samples. */
  lemma {:induction false} SampleAllSnoc(cfg: Config, s: Snapshot, rows: seq<Row>, row: Row)
    ensures SampleAll(cfg, s, rows + [row]) == Sample(cfg, SampleAll(cfg, s, rows), row)
    decreases |rows|
  {
    if rows == [] {
      assert [] + [row] == [row];
      assert [row][1..] == [];
    } else {
      assert (rows + [row])[0] == rows[0];
      assert (rows + [row])[1..] == rows[1..] + [row];
      SampleAllSnoc(cfg, Sample(cfg, s, rows[0]), rows[1..], row);
    }
  }

  /** Samples change only the buffer and the pending trigger. */
  lemma {:induction false} SamplesKeepFiles(cfg: Config, s: Snapshot, rows: seq<Row>)
    ensures var t := SampleAll(cfg, s, rows);
      t.files == s.files && t.phase == s.phase && t.experimentId == s.experimentId && t.running == s.running
    ensures |SampleAll(cfg, s, rows).buffer| == |s.buffer| + (if s.running then |rows| else 0)
    decreases |rows|
  {
    if rows != [] {
      SamplesKeepFiles(cfg, Sample(cfg, s, rows[0]), rows[1..]);
    }
  }

  lemma Concat5<T>(h: seq<T>, x: seq<T>, p: seq<T>, y: seq<T>, q: seq<T>)
    ensures h + ((x + p) + (y + q)) == h + x + p + y + q
  {
  }

  /** START on a fresh device followed by samples: the first sample carries the START trigger. */
  lemma StartThenSamples(cfg: Config, init: Option<Value>, m: Message, rows: seq<Row>)
    requires m.msgType == VStr(START) && rows != [] && !cfg.triggerColumn
    ensures SampleAll(cfg, Step(cfg, Initial(init), Some(m), true).0, rows) ==
      Initial(init).(experimentId := Some(m.experimentId), phase := if cfg.dedup then Started else Idle,
                     buffer := [rows[0] + [Text(TriggerText(m))]] + rows[1..])
  {
    var s0 := Step(cfg, Initial(init), Some(m), true).0;
    assert s0 == Initial(init).(experimentId := Some(m.experimentId), trigger := Some(TriggerText(m)),
                                phase := if cfg.dedup then Started else Idle);
    TriggerMarksFirstRow(cfg, s0, rows);
    SamplesKeepFiles(cfg, s0, rows);
  }

  /** A continuous-mode STOP followed by samples: the first sample carries the STOP trigger. */
  lemma StopThenSamples(cfg: Config, s: Snapshot, m: Message, rows: seq<Row>)
    requires cfg.savingMode == CONTINUOUS && m.msgType == VStr(STOP) && rows != [] && !cfg.triggerColumn
    requires s.running && s.trigger.None? && s.phase != Stopped
    ensures SampleAll(cfg, Step(cfg, s, Some(m), true).0, rows) ==
      s.(experimentId := Some(m.experimentId), phase := if cfg.dedup then Stopped else s.phase,
         buffer := s.buffer + [rows[0] + [Text(TriggerText(m))]] + rows[1..])
  {
    var s0 := Step(cfg, s, Some(m), true).0;
    assert s0 == s.(experimentId := Some(m.experimentId), trigger := Some(TriggerText(m)),
                    phase := if cfg.dedup then Stopped else s.phase);
    TriggerMarksFirstRow(cfg, s0, rows);
    SamplesKeepFiles(cfg, s0, rows);
  }

  /** START, samples, STOP, samples, TERMINATE, on a device that has just started. */
  function Session(cfg: Config, init: Option<Value>, e: Value, k: Value, before: seq<Row>, after: seq<Row>): (Snapshot, Outcome)
  {
    var s1 := SampleAll(cfg, Step(cfg, Initial(init), Some(StartMessage(e, k)), true).0, before);
    var s3 := SampleAll(cfg, Step(cfg, s1, Some(StopMessage(e, k)), true).0, after);
    Step(cfg, s3, Some(TerminateMessage()), true)
  }

  /**
   * A continuous-mode session leaves exactly one file, named after the
   * experiment, holding (after the header) every sample in order, the first
   * after START carrying the START trigger and the first after STOP carrying
   * the STOP trigger.
   */
  lemma ContinuousSession(cfg: Config, init: Option<Value>, e: Value, k: Value, before: seq<Row>, after: seq<Row>)
    requires cfg.savingMode == CONTINUOUS && !cfg.triggerColumn
    requires before != [] && after != []
    ensures var last := Session(cfg, init, e, k, before, after);
      var head := if cfg.header.Some? then [cfg.header.value] else [];
      last.1 == Exit &&
      last.0.files == map[ContinuousFile(cfg, e) :=
        head + [before[0] + [Text(TriggerText(StartMessage(e, k)))]] + before[1..]
             + [after[0] + [Text(TriggerText(StopMessage(e, k)))]] + after[1..]]
    ensures var last := Session(cfg, init, e, k, before, after);
      last.0.files.Keys == {ContinuousFile(cfg, e)} &&
      |last.0.files[ContinuousFile(cfg, e)]| == (if cfg.header.Some? then 1 else 0) + |before| + |after|
  {
    var ts, tp := TriggerText(StartMessage(e, k)), TriggerText(StopMessage(e, k));
    StartThenSamples(cfg, init, StartMessage(e, k), before);
    var s1 := SampleAll(cfg, Step(cfg, Initial(init), Some(StartMessage(e, k)), true).0, before);
    var a := [before[0] + [Text(ts)]] + before[1..];
    StopThenSamples(cfg, s1, StopMessage(e, k), after);
    var s3 := SampleAll(cfg, Step(cfg, s1, Some(StopMessage(e, k)), true).0, after);
    var b := [after[0] + [Text(tp)]] + after[1..];
    assert s1.buffer == a && s1.files == map[];
    assert s3.buffer == a + [after[0] + [Text(tp)]] + after[1..];
    assert s3.buffer == a + b;
    assert s3.files == map[] && s3.experimentId == Some(e);
    var last := Step(cfg, s3, Some(TerminateMessage()), true);
    assert last == Session(cfg, init, e, k, before, after);
    assert last == OnTerminate(cfg, s3);
    assert last.1 == Exit;
    assert last.0.files == Saved(cfg, map[], ContinuousFile(cfg, e), a + b);
    var head := if cfg.header.Some? then [cfg.header.value] else [];
    var f := ContinuousFile(cfg, e);
    assert Saved(cfg, map[], f, a + b) == map[f := head + (a + b)];
    assert |head + (a + b)| == |head| + |before| + |after|;
    Concat5(head, [before[0] + [Text(ts)]], before[1..], [after[0] + [Text(tp)]], after[1..]);
    assert last.0.files == map[f := head + [before[0] + [Text(ts)]] + before[1..] + [after[0] + [Text(tp)]] + after[1..]];
  }

  /**
   * A separated-mode stimulus: START, some samples, STOP writes one file
   * named after the experiment and the stimulus, holding the samples with the
   * START trigger on the first; the buffer is then empty if the device clears it.
   */
  lemma SeparatedStimulus(cfg: Config, init: Option<Value>, e: Value, k: Value, rows: seq<Row>)
    requires cfg.savingMode == SEPARATED && !cfg.triggerColumn && rows != []
    ensures var s0 := Step(cfg, Initial(init), Some(StartMessage(e, k)), true).0;
      var s1 := SampleAll(cfg, s0, rows);
      var stopped := Step(cfg, s1, Some(StopMessage(e, k)), true);
      var head := if cfg.header.Some? then [cfg.header.value] else [];
      var recorded := [rows[0] + [Text(TriggerText(StartMessage(e, k)))]] + rows[1..];
      stopped.1 == Continue &&
      stopped.0.files == map[SeparatedFile(cfg, e, k) := head + recorded] &&
      stopped.0.buffer == (if cfg.clearsAfterSeparatedStop then [] else recorded)
  {
    var s0 := Step(cfg, Initial(init), Some(StartMessage(e, k)), true).0;
    var s1 := SampleAll(cfg, s0, rows);
    var recorded := [rows[0] + [Text(TriggerText(StartMessage(e, k)))]] + rows[1..];
    assert s1.buffer == recorded && s1.files == map[] && s1.phase != Stopped by {
      TriggerMarksFirstRow(cfg, s0, rows);
      SamplesKeepFiles(cfg, s0, rows);
    }
    SeparatedStop(cfg, s1, e, k);
  }

  /** STOP in separated mode, with no file written yet and the device not stopped: the buffer becomes the stimulus's file. */
  lemma SeparatedStop(cfg: Config, s: Snapshot, e: Value, k: Value)
    requires cfg.savingMode == SEPARATED && s.files == map[] && s.phase != Stopped
    ensures var stopped := Step(cfg, s, Some(StopMessage(e, k)), true);
      var head := if cfg.header.Some? then [cfg.header.value] else [];
      stopped.1 == Continue &&
      stopped.0.files == map[SeparatedFile(cfg, e, k) := head + s.buffer] &&
      stopped.0.buffer == (if cfg.clearsAfterSeparatedStop then [] else s.buffer)
  {
    var stop := StopMessage(e, k);
    assert stop.msgType == VStr(STOP);
    var head := if cfg.header.Some? then [cfg.header.value] else [];
    var file := SeparatedFile(cfg, e, k);
    var s2 := OnStop(cfg, s, stop);
    assert Step(cfg, s, Some(stop), true) == (s2, Continue);
    assert Saved(cfg, map[], file, s.buffer) == map[file := head + s.buffer];
    assert s2.files == map[file := head + s.buffer];
  }

  /**
   * SAVE in continuous mode flushes the buffer into the experiment's file and
   * empties it; a later TERMINATE appends what came after to the same file,
   * below the rows already there.
   */
  lemma SaveThenTerminateAppends(cfg: Config, s: Snapshot, e: Value, later: seq<Row>)
    requires cfg.savingMode == CONTINUOUS && cfg.handlesSave && s.running && s.trigger.None? && !cfg.triggerColumn
    requires ContinuousFile(cfg, e) !in s.files
    ensures var saved := Step(cfg, s, Some(SaveMessage(e)), true);
      var terminated := Step(cfg, SampleAll(cfg, saved.0, later), Some(TerminateMessage()), true);
      var head := if cfg.header.Some? then [cfg.header.value] else [];
      saved.1 == Continue && terminated.1 == Exit &&
      terminated.0.files == s.files[ContinuousFile(cfg, e) := head + s.buffer + later]
  {
    var s1 := Step(cfg, s, Some(SaveMessage(e)), true).0;
    var head := if cfg.header.Some? then [cfg.header.value] else [];
    var f := ContinuousFile(cfg, e);
    assert s1.files == s.files[f := head + s.buffer] && s1.buffer == [] && s1.experimentId == Some(e);
    PlainRows(cfg, s1, later);
    var s2 := SampleAll(cfg, s1, later);
    assert s2.buffer == later && s2.files == s1.files && s2.running;
    assert (head + s.buffer) + later == head + s.buffer + later;
    assert Step(cfg, s2, Some(TerminateMessage()), true) == OnTerminate(cfg, s2);
    assert Saved(cfg, s2.files, f, later) == s.files[f := head + s.buffer + later];
  }

  /**
   * A device whose `_experiment_id` has never been assigned fails with
   * AttributeError on a continuous-mode TERMINATE.
   */
  lemma TerminateWithoutExperiment(cfg: Config, s: Snapshot)
    requires cfg.savingMode == CONTINUOUS && s.experimentId.None?
    ensures Step(cfg, s, Some(TerminateMessage()), true).1 == Crash("AttributeError")
  {
  }

  /** After the loop has ended, further samples are not recorded. */
  lemma {:induction false} NoSamplesAfterExit(cfg: Config, s: Snapshot, rows: seq<Row>)
    requires !s.running
    ensures SampleAll(cfg, s, rows) == s
    decreases |rows|
  {
    if rows != [] {
      NoSamplesAfterExit(cfg, s, rows[1..]);
    }
  }

  // ---------------------------------------------------------------- the device process

  class Recorder {
    const cfg: Config
    var phase: Phase
    var trigger: Option<string>
    var buffer: seq<Row>
    var experimentId: Option<Value>
    ghost var files: map<string, seq<Row>>
    var running: bool

    ghost function Snap(): Snapshot
      reads this
    {
      Snapshot(phase, trigger, buffer, experimentId, files, running)
    }

    constructor (cfg: Config, initialExperimentId: Option<Value>)
      ensures this.cfg == cfg && Snap() == Initial(initialExperimentId)
    {
      this.cfg := cfg;
      phase := Idle;
      trigger := None;
      buffer := [];
      experimentId := initialExperimentId;
      files := map[];
      running := true;
    }

    method SaveToFile(file: string)
      modifies this
      ensures files == Saved(cfg, old(files), file, old(buffer))
      ensures phase == old(phase) && trigger == old(trigger) && buffer == old(buffer)
      ensures experimentId == old(experimentId) && running == old(running)
    {
      var before := if file in files then files[file] else if cfg.header.Some? then [cfg.header.value] else [];
      files := files[file := before + buffer];
    }

    /** One turn of `_run`: take a message and act on it. */
    method Handle(msg: Option<Message>, streamAlive: bool) returns (outcome: Outcome)
      modifies this
      ensures (Snap(), outcome) == Step(cfg, old(Snap()), msg, streamAlive)
    {
      if cfg.watchesStream && !streamAlive {
        running := false;
        return Exit;
      }
      if msg.None? {
        return Continue;
      }
      var m := msg.value;
      outcome := Continue;
      if m.msgType == VStr(START) {
        if !(cfg.dedup && phase == Started) {
          trigger := Some(TriggerText(m));
          experimentId := Some(m.experimentId);
          if cfg.dedup {
            phase := Started;
          }
        }
      } else if m.msgType == VStr(STOP) {
        if !(cfg.dedup && phase == Stopped) {
          if cfg.savingMode == SEPARATED {
            experimentId := Some(m.experimentId);
            SaveToFile(SeparatedFile(cfg, m.experimentId, m.stimulusId));
            if cfg.clearsAfterSeparatedStop {
              buffer := [];
            }
          } else {
            experimentId := Some(m.experimentId);
            trigger := Some(TriggerText(m));
          }
          if cfg.dedup {
            phase := Stopped;
          }
        }
      } else if m.msgType == VStr(SAVE) && cfg.handlesSave {
        if cfg.savingMode == CONTINUOUS {
          experimentId := Some(m.experimentId);
          SaveToFile(ContinuousFile(cfg, m.experimentId));
          buffer := [];
        }
      } else if m.msgType == VStr(TERMINATE) {
        running := false;
        if cfg.savingMode == CONTINUOUS {
          if experimentId.None? {
            return Crash("AttributeError");
          }
          SaveToFile(ContinuousFile(cfg, experimentId.value));
        }
        outcome := Exit;
      }
    }

    /** The streaming thread appends one sample. */
    method Record(row: Row)
      modifies this
      ensures Snap() == Sample(cfg, old(Snap()), row)
    {
      if running {
        buffer := buffer + [Marked(cfg, trigger, row)];
        trigger := None;
      }
    }

    /** The streaming thread appends the samples it reads, one after the other. */
    method RecordAll(rows: seq<Row>)
      modifies this
      ensures Snap() == SampleAll(cfg, old(Snap()), rows)
    {
      ghost var start := Snap();
      var i := 0;
      while i < |rows|
        invariant 0 <= i <= |rows|
        invariant Snap() == SampleAll(cfg, start, rows[..i])
      {
        SampleAllSnoc(cfg, start, rows[..i], rows[i]);
        assert rows[..i + 1] == rows[..i] + [rows[i]];
        Record(rows[i]);
        i := i + 1;
      }
      assert rows[..i] == rows;
    }

    /** The BrainFlow streaming thread appends one batch of records. */
    method RecordBatch(records: seq<Row>, stamp: Row)
      modifies this
      ensures Snap() == SampleBatch(cfg, old(Snap()), records, stamp)
    {
      if running && records != [] {
        var last := records[|records| - 1] + stamp;
        buffer := buffer + records[..|records| - 1] + [Marked(cfg, trigger, last)];
        trigger := None;
      }
    }

    /**
     * `_run`: handle queued messages until one ends the loop. Returns how the
     * loop ended and how many messages it consumed.
     */
    method Run(msgs: seq<Message>) returns (outcome: Outcome, consumed: nat)
      modifies this
      ensures consumed <= |msgs|
      ensures (Snap(), outcome) == StepAll(cfg, old(Snap()), msgs[..consumed])
      ensures outcome.Continue? ==> consumed == |msgs|
      ensures StepAll(cfg, old(Snap()), msgs) == (Snap(), outcome)
    {
      consumed := 0;
      outcome := Continue;
      ghost var start := Snap();
      while consumed < |msgs|
        invariant consumed <= |msgs|
        invariant StepAll(cfg, start, msgs) == StepAll(cfg, Snap(), msgs[consumed..])
        invariant (Snap(), Continue) == StepAll(cfg, start, msgs[..consumed])
      {
        var out := Handle(Some(msgs[consumed]), true);
        StepAllSplit(cfg, start, msgs[..consumed], msgs[consumed]);
        assert msgs[..consumed + 1] == msgs[..consumed] + [msgs[consumed]];
        assert msgs[consumed..][1..] == msgs[consumed + 1..];
        consumed := consumed + 1;
        if !out.Continue? {
          return out, consumed;
        }
      }
      assert msgs[consumed..] == [];
      assert msgs[..consumed] == msgs;
    }
  }

  /** Handling one more message after a prefix that kept the loop going. */
  lemma {:induction false} StepAllSplit(cfg: Config, s: Snapshot, prefix: seq<Message>, m: Message)
    requires StepAll(cfg, s, prefix).1 == Continue
    ensures StepAll(cfg, s, prefix + [m]) == Step(cfg, StepAll(cfg, s, prefix).0, Some(m), true)
    decreases |prefix|
  {
    if prefix == [] {
      assert ([] + [m])[1..] == [];
    } else {
      var (t, out) := Step(cfg, s, Some(prefix[0]), true);
      assert (prefix + [m])[0] == prefix[0];
      assert (prefix + [m])[1..] == prefix[1..] + [m];
      StepAllSplit(cfg, t, prefix[1..], m);
    }
  }
}
