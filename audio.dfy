// The audio recorder (octopus_sensing/devices/audio_streaming.py): captured
// chunks of 16-bit sound are appended to a buffer by a generator the capture
// device feeds. In separated mode each stimulus gets its own WAV file; in
// continuous mode capture starts once, START and STOP are written to an event
// log, and TERMINATE writes one WAV file and the log.
//
// Clock readings (datetime.now()) are parameters; the capture device is left
// out. WAV files are a ghost map from file name to their 16-bit samples, log
// files a ghost map from file name to their rows.

module Audio {
  import opened Common
  import opened Messages
  import opened Recording

  /** The constructor's default saving mode. */
  const DefaultSavingMode: int := SEPARATED

  /** The capture rate, used only to size the monitoring window. */
  const SamplingRate: int := 44100

  // ---------------------------------------------------------------- samples

  /** A 16-bit word read as two's complement. */
  function Signed16(w: int): (v: int)
    requires 0 <= w < 65536
    ensures -32768 <= v < 32768 && (v - w) % 65536 == 0
  {
    if w < 32768 then w else w - 65536
  }

  /** The little-endian signed 16-bit samples of an even run of bytes. */
  function Words(b: seq<byte>): (xs: seq<int>)
    requires |b| % 2 == 0
    ensures |xs| == |b| / 2
    ensures forall i :: 0 <= i < |xs| ==> -32768 <= xs[i] < 32768
    decreases |b|
  {
    if b == [] then [] else [Signed16((b[0] as int) + 256 * (b[1] as int))] + Words(b[2..])
  }

  /**
   * `array('h').frombytes(...)` over the joined chunks: a byte count that is
   * not a multiple of two raises ValueError.
   */
  function Samples(b: seq<byte>): (r: Result<seq<int>>)
    ensures r.Ok? <==> |b| % 2 == 0
  {
    if |b| % 2 != 0 then Err("ValueError") else Ok(Words(b))
  }

  /** The two bytes of a sample, least significant first. */
  function SampleBytes(v: int): (b: seq<byte>)
    requires -32768 <= v < 32768
    ensures |b| == 2
  {
    var w := if v < 0 then v + 65536 else v;
    [w % 256, w / 256]
  }

  function Encode(xs: seq<int>): (b: seq<byte>)
    requires forall i :: 0 <= i < |xs| ==> -32768 <= xs[i] < 32768
    ensures |b| == 2 * |xs|
  {
    if xs == [] then [] else SampleBytes(xs[0]) + Encode(xs[1..])
  }

  /** Reading back the bytes of samples gives the samples. */
  lemma {:induction false} WordsOfEncode(xs: seq<int>)
    requires forall i :: 0 <= i < |xs| ==> -32768 <= xs[i] < 32768
    ensures Words(Encode(xs)) == xs
    decreases |xs|
  {
    if xs != [] {
      var b := Encode(xs);
      assert b[2..] == Encode(xs[1..]);
      WordsOfEncode(xs[1..]);
    }
  }

  /** Writing the samples of bytes gives the bytes back. */
  lemma {:induction false} EncodeOfWords(b: seq<byte>)
    requires |b| % 2 == 0
    ensures Encode(Words(b)) == b
    decreases |b|
  {
    if b != [] {
      EncodeOfWords(b[2..]);
      var xs := Words(b);
      assert xs[1..] == Words(b[2..]);
      assert SampleBytes(xs[0]) == b[..2];
      assert b == b[..2] + b[2..];
    }
  }

  function Flatten(chunks: seq<seq<byte>>): seq<byte>
    decreases |chunks|
  {
    if chunks == [] then [] else chunks[0] + Flatten(chunks[1..])
  }

  // ---------------------------------------------------------------- files

  datatype AudioConfig = AudioConfig(
    name: string,
    /** The recorder's own directory (output_path joined with the name). */
    dir: string,
    savingMode: int
  )

  function StimulusFile(cfg: AudioConfig, m: Message): string
  {
    cfg.dir + "/" + cfg.name + "-" + Str(m.experimentId) + "-" + ZFill(Str(m.stimulusId), 2) + ".wav"
  }

  function ExperimentFile(cfg: AudioConfig, experimentId: Value): string
  {
    cfg.dir + "/" + cfg.name + "-" + Str(experimentId) + ".wav"
  }

  function LogFile(cfg: AudioConfig, experimentId: Value): string
  {
    cfg.dir + "/" + cfg.name + "-" + Str(experimentId) + "-log.csv"
  }

  /** A row of the event log: the time, the stimulus id padded to two (or "-"), and the event. */
  type LogRow = seq<string>

  function LogEntry(now: string, m: Message, event: string): LogRow
  {
    [now, ZFill(Str(m.stimulusId), 2), event]
  }

  // ---------------------------------------------------------------- message loop

  /**
   * The recorder's state: `_state`, `_stream_data`, whether the capture device
   * feeds the buffer (`_record`), `_continuous_capture`, `_log`,
   * `_experiment_id` (None while never assigned), and the files written.
   */
  datatype AudioState = AudioState(
    phase: Phase,
    chunks: seq<seq<byte>>,
    capturing: bool,
    continuousCapture: bool,
    log: seq<LogRow>,
    experimentId: Option<Value>,
    wavs: map<string, seq<int>>,
    logFiles: map<string, seq<LogRow>>
  )

  function InitialState(): AudioState
  {
    AudioState(Idle, [], false, false, [], None, map[], map[])
  }

  /** START: separated mode starts a fresh capture; continuous mode starts capture once and logs the event. */
  function StartAudio(cfg: AudioConfig, s: AudioState, m: Message, now: string): AudioState
  {
    if s.phase == Started then s
    else if cfg.savingMode == SEPARATED then
      s.(chunks := [], capturing := true, phase := Started)
    else
      var s1 := if s.continuousCapture then s else s.(capturing := true, continuousCapture := true);
      s1.(log := s1.log + [LogEntry(now, m, "MESSAGE START")], phase := Started)
  }

  /** STOP: separated mode stops capture and writes the stimulus's WAV file; continuous mode logs the event. */
  function StopAudio(cfg: AudioConfig, s: AudioState, m: Message, now: string): (AudioState, Outcome)
  {
    if s.phase == Stopped then (s, Continue)
    else if cfg.savingMode == SEPARATED then
      var samples := Samples(Flatten(s.chunks));
      if samples.Err? then (s.(capturing := false), Crash(samples.error))
      else (s.(capturing := false, wavs := s.wavs[StimulusFile(cfg, m) := samples.value], phase := Stopped), Continue)
    else
      (s.(log := s.log + [LogEntry(now, m, "MESSAGE STOP")], experimentId := Some(m.experimentId), phase := Stopped), Continue)
  }

  /**
   * TERMINATE: in continuous mode log it, stop capture, write the WAV file
   * of the experiment last named by a STOP and append the log to its log
   * file; leave the loop.
   */
  function TerminateAudio(cfg: AudioConfig, s: AudioState, now: string): (AudioState, Outcome)
  {
    if cfg.savingMode != CONTINUOUS then (s, Exit)
    else
      var s1 := s.(log := s.log + [[now, "-", "MESSAGE TERMINATE"]], capturing := false);
      if s1.experimentId.None? then (s1, Crash("AttributeError"))
      else
        var samples := Samples(Flatten(s1.chunks));
        if samples.Err? then (s1, Crash(samples.error))
        else
          var e := s1.experimentId.value;
          var logged := if LogFile(cfg, e) in s1.logFiles then s1.logFiles[LogFile(cfg, e)] else [];
          (s1.(wavs := s1.wavs[ExperimentFile(cfg, e) := samples.value],
               logFiles := s1.logFiles[LogFile(cfg, e) := logged + s1.log]), Exit)
  }

  /** What `_run` does with one message read at time `now`. */
  function AudioStep(cfg: AudioConfig, s: AudioState, msg: Option<Message>, now: string): (AudioState, Outcome)
  {
    if msg.None? then (s, Continue)
    else if msg.value.msgType == VStr(START) then (StartAudio(cfg, s, msg.value, now), Continue)
    else if msg.value.msgType == VStr(STOP) then StopAudio(cfg, s, msg.value, now)
    else if msg.value.msgType == VStr(TERMINATE) then TerminateAudio(cfg, s, now)
    else (s, Continue)
  }

  /** `__stream_loop`: the generator appends every chunk the capture device sends it. */
  function Received(s: AudioState, chunk: seq<byte>): AudioState
  {
    if s.capturing then s.(chunks := s.chunks + [chunk]) else s
  }

  function ReceiveAll(s: AudioState, chunks: seq<seq<byte>>): AudioState
    decreases |chunks|
  {
    if chunks == [] then s else ReceiveAll(Received(s, chunks[0]), chunks[1..])
  }

  /** `_get_realtime_data`: the last duration * 44100 entries of the buffer, each one a whole chunk. */
  function RealtimeData(chunks: seq<seq<byte>>, duration: int): seq<seq<byte>>
  {
    SliceFrom(chunks, -(duration * SamplingRate))
  }

  // ---------------------------------------------------------------- properties

  /** The window counts chunks, not samples: with fewer chunks than 44100 a second, the whole buffer is returned. */
  lemma RealtimeDataCountsChunks(chunks: seq<seq<byte>>, duration: int)
    requires duration >= 1 && |chunks| <= SamplingRate
    ensures RealtimeData(chunks, duration) == chunks
  {
    assert SamplingRate <= duration * SamplingRate;
    LastItems(chunks, duration * SamplingRate);
  }

  /** A repeated START or STOP changes nothing. */
  lemma RepeatIgnored(cfg: AudioConfig, s: AudioState, m: Message, now: string)
    requires (m.msgType == VStr(START) && s.phase == Started) || (m.msgType == VStr(STOP) && s.phase == Stopped)
    ensures AudioStep(cfg, s, Some(m), now) == (s, Continue)
  {
  }

  lemma {:induction false} ReceiveAllCapturing(s: AudioState, chunks: seq<seq<byte>>)
    requires s.capturing
    ensures ReceiveAll(s, chunks) == s.(chunks := s.chunks + chunks)
    decreases |chunks|
  {
    if chunks != [] {
      ReceiveAllCapturing(Received(s, chunks[0]), chunks[1..]);
      assert s.chunks + [chunks[0]] + chunks[1..] == s.chunks + chunks;
    }
  }

  /**
   * Separated mode: START, chunks of an even byte count, STOP writes exactly
   * those chunks' samples to the stimulus's WAV file and stops capture.
   */
  lemma SeparatedStimulus(cfg: AudioConfig, s: AudioState, m: Message, chunks: seq<seq<byte>>, stop: Message, t1: string, t2: string)
    requires cfg.savingMode == SEPARATED && s.phase != Started
    requires m.msgType == VStr(START) && stop.msgType == VStr(STOP)
    requires |Flatten(chunks)| % 2 == 0
    ensures var s1 := ReceiveAll(AudioStep(cfg, s, Some(m), t1).0, chunks);
      var (s2, out) := AudioStep(cfg, s1, Some(stop), t2);
      out == Continue && !s2.capturing && s2.phase == Stopped && s2.chunks == chunks &&
      s2.wavs == s.wavs[StimulusFile(cfg, stop) := Words(Flatten(chunks))] &&
      Encode(s2.wavs[StimulusFile(cfg, stop)]) == Flatten(chunks)
  {
    var s0 := AudioStep(cfg, s, Some(m), t1).0;
    ReceiveAllCapturing(s0, chunks);
    assert [] + chunks == chunks;
    EncodeOfWords(Flatten(chunks));
  }

  /**
   * Continuous mode: capture starts on the first START only, so the chunks
   * of every stimulus accumulate; each START and STOP adds one log row.
   */
  lemma ContinuousStimuli(cfg: AudioConfig, m1: Message, m2: Message, m3: Message, c1: seq<seq<byte>>, c2: seq<seq<byte>>, c3: seq<seq<byte>>, t1: string, t2: string, t3: string)
    requires cfg.savingMode == CONTINUOUS
    requires m1.msgType == VStr(START) && m2.msgType == VStr(STOP) && m3.msgType == VStr(START)
    ensures var s1 := ReceiveAll(AudioStep(cfg, InitialState(), Some(m1), t1).0, c1);
      var s2 := ReceiveAll(AudioStep(cfg, s1, Some(m2), t2).0, c2);
      var s3 := ReceiveAll(AudioStep(cfg, s2, Some(m3), t3).0, c3);
      s3.chunks == c1 + c2 + c3 && s3.capturing && s3.phase == Started &&
      s3.log == [LogEntry(t1, m1, "MESSAGE START"), LogEntry(t2, m2, "MESSAGE STOP"), LogEntry(t3, m3, "MESSAGE START")] &&
      s3.experimentId == Some(m2.experimentId) && s3.wavs == map[]
  {
    var s0 := AudioStep(cfg, InitialState(), Some(m1), t1).0;
    ReceiveAllCapturing(s0, c1);
    var s1 := ReceiveAll(s0, c1);
    assert s1.chunks == c1;
    var s1b := AudioStep(cfg, s1, Some(m2), t2).0;
    ReceiveAllCapturing(s1b, c2);
    var s2 := ReceiveAll(s1b, c2);
    var s2b := AudioStep(cfg, s2, Some(m3), t3).0;
    ReceiveAllCapturing(s2b, c3);
  }

  /** Continuous mode: TERMINATE before any STOP has named the experiment fails with AttributeError. */
  lemma TerminateWithoutExperiment(cfg: AudioConfig, s: AudioState, now: string)
    requires cfg.savingMode == CONTINUOUS && s.experimentId.None?
    ensures AudioStep(cfg, s, Some(TerminateMessage()), now).1 == Crash("AttributeError")
    ensures !AudioStep(cfg, s, Some(TerminateMessage()), now).0.capturing
  {
  }

  /**
   * Continuous mode: TERMINATE after a STOP writes the experiment's WAV file
   * with every buffered sample and appends the log, closed by the TERMINATE
   * row, to the experiment's log file.
   */
  lemma ContinuousTerminate(cfg: AudioConfig, s: AudioState, now: string)
    requires cfg.savingMode == CONTINUOUS && s.experimentId.Some? && |Flatten(s.chunks)| % 2 == 0
    requires LogFile(cfg, s.experimentId.value) !in s.logFiles
    ensures var (s1, out) := AudioStep(cfg, s, Some(TerminateMessage()), now);
      var e := s.experimentId.value;
      out == Exit && !s1.capturing &&
      s1.wavs == s.wavs[ExperimentFile(cfg, e) := Words(Flatten(s.chunks))] &&
      s1.logFiles == s.logFiles[LogFile(cfg, e) := s.log + [[now, "-", "MESSAGE TERMINATE"]]]
  {
    assert [] + (s.log + [[now, "-", "MESSAGE TERMINATE"]]) == s.log + [[now, "-", "MESSAGE TERMINATE"]];
  }

  class AudioDevice {
    const cfg: AudioConfig
    var phase: Phase
    var chunks: seq<seq<byte>>
    var capturing: bool
    var continuousCapture: bool
    var log: seq<LogRow>
    var experimentId: Option<Value>
    ghost var wavs: map<string, seq<int>>
    ghost var logFiles: map<string, seq<LogRow>>

    ghost function Snap(): AudioState
      reads this
    {
      AudioState(phase, chunks, capturing, continuousCapture, log, experimentId, wavs, logFiles)
    }

    constructor (name: string, outputPath: string, savingMode: int := DefaultSavingMode)
      ensures cfg == AudioConfig(name, PathJoin(outputPath, name), savingMode)
      ensures Snap() == InitialState()
    {
      cfg := AudioConfig(name, PathJoin(outputPath, name), savingMode);
      phase := Idle;
      chunks := [];
      capturing := false;
      continuousCapture := false;
      log := [];
      experimentId := None;
      wavs := map[];
      logFiles := map[];
    }

    /** `_save_to_file`: decode the joined chunks and write them; odd byte counts raise. */
    method SaveToFile(file: string) returns (r: Result<()>)
      modifies this
      ensures var samples := Samples(Flatten(old(chunks)));
        (samples.Err? ==> r == Err(samples.error) && wavs == old(wavs)) &&
        (samples.Ok? ==> r == Ok(()) && wavs == old(wavs)[file := samples.value])
      ensures Snap() == old(Snap()).(wavs := wavs)
    {
      var samples := Samples(Flatten(chunks));
      if samples.Err? {
        return Err(samples.error);
      }
      wavs := wavs[file := samples.value];
      r := Ok(());
    }

    /** One message of `_run`, read at time `now`. */
    method Handle(msg: Option<Message>, now: string) returns (outcome: Outcome)
      modifies this
      ensures (Snap(), outcome) == AudioStep(cfg, old(Snap()), msg, now)
    {
      outcome := Continue;
      if msg.None? {
        return;
      }
      var m := msg.value;
      if m.msgType == VStr(START) {
        if phase != Started {
          if cfg.savingMode == SEPARATED {
            chunks := [];
            capturing := true;
          } else {
            if !continuousCapture {
              capturing := true;
              continuousCapture := true;
            }
            log := log + [LogEntry(now, m, "MESSAGE START")];
          }
          phase := Started;
        }
      } else if m.msgType == VStr(STOP) {
        if phase != Stopped {
          if cfg.savingMode == SEPARATED {
            capturing := false;
            var saved := SaveToFile(StimulusFile(cfg, m));
            if saved.Err? {
              return Crash(saved.error);
            }
          } else {
            log := log + [LogEntry(now, m, "MESSAGE STOP")];
            experimentId := Some(m.experimentId);
          }
          phase := Stopped;
        }
      } else if m.msgType == VStr(TERMINATE) {
        if cfg.savingMode == CONTINUOUS {
          log := log + [[now, "-", "MESSAGE TERMINATE"]];
          capturing := false;
          if experimentId.None? {
            return Crash("AttributeError");
          }
          var e := experimentId.value;
          var saved := SaveToFile(ExperimentFile(cfg, e));
          if saved.Err? {
            return Crash(saved.error);
          }
          var logged := if LogFile(cfg, e) in logFiles then logFiles[LogFile(cfg, e)] else [];
          logFiles := logFiles[LogFile(cfg, e) := logged + log];
        }
        outcome := Exit;
      }
    }

    /** The capture callback: the chunk is appended while capture runs. */
    method Receive(chunk: seq<byte>)
      modifies this
      ensures Snap() == Received(old(Snap()), chunk)
    {
      if capturing {
        chunks := chunks + [chunk];
      }
    }
  }
}
