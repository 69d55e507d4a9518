// The camera (octopus_sensing/devices/camera_streaming.py): START begins a
// new video for the stimulus, a recording thread appends captured frames and
// their capture times, and when STOP or TERMINATE clears the thread's event the
// frames are written with a frame rate estimated from the capture times.
// Monitoring reads one frame per second of the latest frames.
//
// Capture times are integers in microseconds; the capture device, the video
// writer and the thread are left out, and the written videos are a ghost map
// from file name to frames and frame rate.

module Camera {
  import opened Common
  import opened Messages
  import opened Recording

  /** A captured frame; its pixels are never inspected. */
  datatype Frame = Frame(pixels: seq<int>)

  /** A written video file: the frames in order and the frame rate it was written with. */
  datatype Video = Video(frames: seq<Frame>, fps: int)

  /** One second of capture time. */
  const Second: int := 1_000_000

  // ---------------------------------------------------------------- set-up

  /** The constructor's assertion: exactly one of camera_no and camera_path is given (None is VNone). */
  function CameraSource(cameraNo: Value, cameraPath: Value): (r: Result<Value>)
    ensures r.Ok? <==> (cameraNo == VNone) != (cameraPath == VNone)
    ensures r.Ok? ==> r.value != VNone && (r.value == cameraNo || r.value == cameraPath)
  {
    if (cameraNo != VNone) == (cameraPath != VNone) then Err("AssertionError")
    else if cameraNo != VNone then Ok(cameraNo)
    else Ok(cameraPath)
  }

  /** The video size read back from the capture device: both sides must be positive, or RuntimeError. */
  function VideoSize(width: int, height: int): (r: Result<(int, int)>)
    ensures r.Ok? <==> width > 0 && height > 0
    ensures r.Ok? ==> r.value == (width, height)
  {
    if width <= 0 || height <= 0 then Err("RuntimeError") else Ok((width, height))
  }

  /** "{dir}/{name}-{experiment id}-{stimulus id padded to two}.avi", dir being the camera's own directory. */
  function VideoFile(dir: string, name: string, m: Message): string
  {
    dir + "/" + name + "-" + Str(m.experimentId) + "-" + ZFill(Str(m.stimulusId), 2) + ".avi"
  }

  lemma NatToStringBelow100(k: nat)
    requires k < 100
    ensures 1 <= |NatToString(k)| <= 2
  {
    if k >= 10 {
      assert NatToString(k / 10) == [DigitChar(k / 10)];
    }
  }

  /** Two stimuli numbered differently below 100 are recorded into different files. */
  lemma VideoFilesDistinct(dir: string, name: string, e: Value, k1: nat, k2: nat)
    requires k1 < 100 && k2 < 100 && k1 != k2
    ensures VideoFile(dir, name, StartMessage(e, VInt(k1))) != VideoFile(dir, name, StartMessage(e, VInt(k2)))
  {
    var p := dir + "/" + name + "-" + Str(e) + "-";
    var z1, z2 := ZFill(IntToString(k1), 2), ZFill(IntToString(k2), 2);
    NatToStringBelow100(k1);
    NatToStringBelow100(k2);
    assert |z1| == 2 && |z2| == 2;
    var f1, f2 := p + z1 + ".avi", p + z2 + ".avi";
    assert VideoFile(dir, name, StartMessage(e, VInt(k1))) == f1;
    assert VideoFile(dir, name, StartMessage(e, VInt(k2))) == f2;
    assert f1[|p|..|p| + 2] == z1;
    assert f2[|p|..|p| + 2] == z2;
    ZFill2OfNat(k1);
    ZFill2OfNat(k2);
  }

  // ---------------------------------------------------------------- frame rate

  /** Python's int() of the exact quotient a / b: truncated toward zero. */
  function TruncDiv(a: int, b: int): (q: int)
    requires b != 0
    ensures a >= 0 && b > 0 ==> q == a / b
  {
    var n := if a < 0 then -a else a;
    var d := if b < 0 then -b else b;
    if (a < 0) != (b < 0) then -(n / d) else n / d
  }

  /**
   * `_get_frame_rate` from the loop state on: while the time span is under
   * five seconds and older capture times remain, widen the span to the
   * (i+1)-th latest time; then divide the count i by the span.
   */
  function FrameRateFrom(times: seq<int>, diff: int, i: nat): (r: Result<int>)
    requires i >= 1
    decreases |times| - i
  {
    if diff < 5 * Second && |times| > i then
      FrameRateFrom(times, times[|times| - 1] - times[|times| - 1 - i], i + 1)
    else if diff == 0 then Err("ZeroDivisionError")
    else Ok(TruncDiv(i * Second, diff))
  }

  /** `_get_frame_rate`: 1 when there are fewer than two capture times. */
  function FrameRate(times: seq<int>): (r: Result<int>)
    ensures |times| < 2 ==> r == Ok(1)
  {
    FrameRateFrom(times, Second, 1)
  }

  predicate Increasing(times: seq<int>)
  {
    forall j, k :: 0 <= j < k < |times| ==> times[j] < times[k]
  }

  /** With strictly increasing capture times every span is positive, so the division succeeds. */
  lemma {:induction false} FrameRateFromIncreasing(times: seq<int>, diff: int, i: nat)
    requires i >= 1 && diff > 0 && Increasing(times)
    ensures FrameRateFrom(times, diff, i).Ok? && FrameRateFrom(times, diff, i).value >= 0
    decreases |times| - i
  {
    if diff < 5 * Second && |times| > i {
      FrameRateFromIncreasing(times, times[|times| - 1] - times[|times| - 1 - i], i + 1);
    }
  }

  lemma FrameRateIncreasing(times: seq<int>)
    requires Increasing(times)
    ensures FrameRate(times).Ok? && FrameRate(times).value >= 0
  {
    FrameRateFromIncreasing(times, Second, 1);
  }

  /** Two frames captured at the same instant make the estimate divide by zero. */
  lemma FrameRateOfSimultaneousFrames(t: int)
    ensures FrameRate([t, t]) == Err("ZeroDivisionError")
  {
    assert FrameRateFrom([t, t], Second, 1) == FrameRateFrom([t, t], 0, 2);
  }

  lemma MulMono(a: int, b: int, c: int)
    requires 0 <= a <= b && c >= 0
    ensures a * c <= b * c
  {
  }

  lemma MulPos(a: int, b: int)
    requires a > 0 && b > 0
    ensures a * b > 0
  {
  }

  /** c = ceil(span / d): the first count of steps of d that reaches the span. */
  lemma CeilSteps(span: int, d: int) returns (c: int)
    requires span > 0 && d > 0
    ensures c >= 1 && c * d >= span && (c - 1) * d < span
  {
    c := (span + d - 1) / d;
    var r := (span + d - 1) % d;
    assert span + d - 1 == c * d + r && 0 <= r < d;
  }

  predicate Evenly(times: seq<int>, d: int)
  {
    forall j :: 0 <= j < |times| ==> times[j] == times[0] + j * d
  }

  lemma EvenlySpan(times: seq<int>, d: int, i: nat)
    requires Evenly(times, d) && 0 < i < |times|
    ensures times[|times| - 1] - times[|times| - 1 - i] == i * d
  {
    var n := |times|;
    assert times[n - 1] == times[0] + (n - 1) * d;
    assert times[n - 1 - i] == times[0] + (n - 1 - i) * d;
    assert (n - 1) * d - (n - 1 - i) * d == i * d;
  }

  lemma {:induction false} FrameRateFromEvenly(times: seq<int>, d: int, k: int, diff: int, i: nat)
    requires Evenly(times, d) && d > 0 && 1 <= k < |times|
    requires (k - 1) * d < 5 * Second && (k == |times| - 1 || k * d >= 5 * Second)
    requires 1 <= i <= k + 1
    requires i == 1 ==> diff == Second
    requires i > 1 ==> diff == (i - 1) * d
    ensures FrameRateFrom(times, diff, i) == Ok(((k + 1) * Second) / (k * d))
    decreases k + 1 - i
  {
    if i <= k {
      if i > 1 {
        MulMono(i - 1, k - 1, d);
      }
      assert diff < 5 * Second;
      EvenlySpan(times, d, i);
      FrameRateFromEvenly(times, d, k, times[|times| - 1] - times[|times| - 1 - i], i + 1);
    } else {
      MulPos(k, d);
      MulPos(k + 1, Second);
      assert diff == k * d;
    }
  }

  /**
   * With frames d microseconds apart, the estimate looks back over
   * k = min(n - 1, ceil(5 s / d)) intervals and divides k + 1 (the number of
   * frames, not of intervals) by their span: it reads (k + 1) / (k * d).
   */
  lemma FrameRateOfEvenFrames(times: seq<int>, d: int) returns (k: int)
    requires Evenly(times, d) && d > 0 && |times| >= 2
    ensures 1 <= k < |times|
    ensures FrameRate(times) == Ok(((k + 1) * Second) / (k * d))
  {
    var c := CeilSteps(5 * Second, d);
    k := if c < |times| - 1 then c else |times| - 1;
    MulMono(k - 1, c - 1, d);
    FrameRateFromEvenly(times, d, k, Second, 1);
  }

  /** Two frames 40 ms apart (25 per second) are estimated at 50 per second. */
  lemma FrameRateOfTwoFrames(t: int)
    ensures FrameRate([t, t + 40_000]) == Ok(50)
  {
    var times := [t, t + 40_000];
    assert Evenly(times, 40_000);
    var k := FrameRateOfEvenFrames(times, 40_000);
    assert k == 1;
  }

  // ---------------------------------------------------------------- monitoring

  /** Python's s[k] with negative indices counting from the end; None where it raises IndexError. */
  function PyIndex<T>(s: seq<T>, k: int): (r: Option<T>)
    ensures r.Some? <==> -|s| <= k < |s|
    ensures 0 <= k < |s| ==> r == Some(s[k])
  {
    if 0 <= k < |s| then Some(s[k]) else if -|s| <= k < 0 then Some(s[|s| + k]) else None
  }

  /** The frames p put in front of the frames r picks, unless r raises. */
  function Joined(p: seq<Frame>, r: Result<seq<Frame>>): Result<seq<Frame>>
  {
    if r.Ok? then Ok(p + r.value) else r
  }

  /**
   * The loop of `_get_realtime_data` from second i on: take data[i * fps]
   * until the duration is reached or the index passes the end of the data.
   */
  function Picks(data: seq<Frame>, fps: int, duration: int, i: nat): (r: Result<seq<Frame>>)
    ensures r.Ok? ==> |r.value| <= if duration > i then duration - i else 0
    decreases duration - i
  {
    if i >= duration || i * fps + 1 > |data| then Ok([])
    else
      match PyIndex(data, i * fps)
      case None => Err("IndexError")
      case Some(f) => Joined([f], Picks(data, fps, duration, i + 1))
  }


  /** How many seconds the monitoring loop covers at a positive frame rate. */
  function PickCount(len: nat, fps: int, duration: int): int
    requires fps >= 1 && len >= 1
  {
    var reach := (len - 1) / fps + 1;
    if duration <= 0 then 0 else if duration < reach then duration else reach
  }

  /** The loop goes on at second i exactly while i is below the count. */
  lemma PickCountBound(len: nat, fps: int, duration: int, i: nat)
    requires fps >= 1 && len >= 1
    ensures i < PickCount(len, fps, duration) ==> i < duration && 0 <= i * fps && i * fps + 1 <= len
    ensures i == PickCount(len, fps, duration) ==> i >= duration || i * fps + 1 > len
  {
    var q := (len - 1) / fps;
    assert q * fps <= len - 1 < (q + 1) * fps;
    if i <= q {
      MulMono(i, q, fps);
    } else {
      MulMono(q + 1, i, fps);
    }
  }

  lemma {:induction false} PicksEveryNthFrom(data: seq<Frame>, fps: int, duration: int, i: nat)
    requires fps >= 1 && data != [] && i <= PickCount(|data|, fps, duration)
    ensures var r := Picks(data, fps, duration, i);
      r.Ok? && |r.value| == PickCount(|data|, fps, duration) - i
    decreases PickCount(|data|, fps, duration) - i
  {
    PickCountBound(|data|, fps, duration, i);
    if i < PickCount(|data|, fps, duration) {
      PicksEveryNthFrom(data, fps, duration, i + 1);
    }
  }

  lemma {:induction false} PicksElement(data: seq<Frame>, fps: int, duration: int, i: nat, j: nat)
    requires fps >= 1 && data != [] && i + j < PickCount(|data|, fps, duration)
    ensures var r := Picks(data, fps, duration, i);
      r.Ok? && j < |r.value| && 0 <= (i + j) * fps < |data| && r.value[j] == data[(i + j) * fps]
    decreases j
  {
    PickCountBound(|data|, fps, duration, i);
    PickCountBound(|data|, fps, duration, i + j);
    PicksEveryNthFrom(data, fps, duration, i);
    PicksEveryNthFrom(data, fps, duration, i + 1);
    var rest := Picks(data, fps, duration, i + 1).value;
    assert Picks(data, fps, duration, i) == Ok([data[i * fps]] + rest);
    if j > 0 {
      PicksElement(data, fps, duration, i + 1, j - 1);
      assert i + 1 + (j - 1) == i + j;
    }
  }

  /**
   * At a positive frame rate the monitoring data are every fps-th frame of
   * the latest data, at most one per second of the duration.
   */
  lemma PicksEveryNth(data: seq<Frame>, fps: int, duration: int)
    requires fps >= 1 && data != []
    ensures var n := PickCount(|data|, fps, duration);
      var r := Picks(data, fps, duration, 0);
      r.Ok? && |r.value| == n && (forall j :: 0 <= j < n ==> 0 <= j * fps < |data| && r.value[j] == data[j * fps]) &&
      (duration >= 0 ==> n <= duration)
  {
    PicksEveryNthFrom(data, fps, duration, 0);
    var n := PickCount(|data|, fps, duration);
    var r := Picks(data, fps, duration, 0);
    forall j | 0 <= j < n
      ensures 0 <= j * fps < |data| && r.value[j] == data[j * fps]
    {
      PicksElement(data, fps, duration, 0, j);
      assert 0 + j == j;
    }
  }

  /** At an estimated rate of zero the loop never passes the end: it repeats the oldest frame once per second. */
  lemma {:induction false} PicksAtZeroFps(data: seq<Frame>, duration: int, i: nat)
    requires data != [] && i <= duration
    ensures Picks(data, 0, duration, i) == Ok(Repeat(data[0], duration - i))
    decreases duration - i
  {
    if i < duration {
      PicksAtZeroFps(data, duration, i + 1);
      assert [data[0]] + Repeat(data[0], duration - i - 1) == Repeat(data[0], duration - i);
    }
  }

  /**
   * `_get_realtime_data`: the frame rate, then one frame per second out of
   * the last duration * fps frames (none when there are none).
   */
  function RealtimeData(frames: seq<Frame>, times: seq<int>, duration: int): (r: Result<(seq<Frame>, int)>)
  {
    var fps := FrameRate(times);
    if fps.Err? then Err(fps.error)
    else
      var data := SliceFrom(frames, -(duration * fps.value));
      if data == [] then Ok(([], fps.value))
      else
        var picked := Picks(data, fps.value, duration, 0);
        if picked.Err? then Err(picked.error) else Ok((picked.value, fps.value))
  }

  /** The monitoring data never hold more frames than the duration has seconds. */
  lemma RealtimeDataBound(frames: seq<Frame>, times: seq<int>, duration: int)
    requires RealtimeData(frames, times, duration).Ok?
    ensures |RealtimeData(frames, times, duration).value.0| <= if duration > 0 then duration else 0
  {
  }

  /** With a single capture time the rate is 1, and the data are the last `duration` frames. */
  lemma RealtimeDataOfOneCapture(frames: seq<Frame>, t: int, duration: int)
    requires 0 < duration <= |frames|
    ensures RealtimeData(frames, [t], duration) == Ok((frames[|frames| - duration..], 1))
  {
    assert FrameRate([t]) == Ok(1);
    assert duration * 1 == duration;
    var data := SliceFrom(frames, -duration);
    LastItems(frames, duration);
    assert data == frames[|frames| - duration..];
    PicksEveryNth(data, 1, duration);
    assert (|data| - 1) / 1 + 1 == duration;
    var r := Picks(data, 1, duration, 0).value;
    forall j | 0 <= j < duration
      ensures r[j] == data[j]
    {
      assert j * 1 == j;
    }
    assert r == data;
  }

  /** One second of the loop: the frame taken moves from the picks still to come to the frames picked. */
  lemma PicksStep(data: seq<Frame>, fps: int, duration: int, i: nat, picked: seq<Frame>, f: Frame)
    requires i < duration && i * fps + 1 <= |data| && PyIndex(data, i * fps) == Some(f)
    ensures Joined(picked, Picks(data, fps, duration, i)) == Joined(picked + [f], Picks(data, fps, duration, i + 1))
  {
    var rest := Picks(data, fps, duration, i + 1);
    if rest.Ok? {
      assert picked + ([f] + rest.value) == (picked + [f]) + rest.value;
    }
  }

  /** The loop of `_get_realtime_data`: one frame per second of the duration. */
  method PickFrames(data: seq<Frame>, fps: int, duration: int) returns (r: Result<seq<Frame>>)
    ensures r == Picks(data, fps, duration, 0)
  {
    var picked: seq<Frame> := [];
    var i: nat := 0;
    ghost var all := Picks(data, fps, duration, 0);
    assert all.Ok? ==> [] + all.value == all.value;
    while i < duration
      invariant Picks(data, fps, duration, 0) == Joined(picked, Picks(data, fps, duration, i))
      decreases duration - i
    {
      if i * fps + 1 > |data| {
        break;
      }
      var k := i * fps;
      if !(-|data| <= k < |data|) {
        return Err("IndexError");
      }
      var f := if k >= 0 then data[k] else data[|data| + k];
      PicksStep(data, fps, duration, i, picked, f);
      picked := picked + [f];
      i := i + 1;
    }
    assert picked + [] == picked;
    r := Ok(picked);
  }

  // ---------------------------------------------------------------- message loop

  /**
   * The camera's state: `_state`, `_frames`, `_capture_times`, the file of
   * the recording thread (None when there is no thread and no event), and
   * the videos written so far.
   */
  datatype CameraState = CameraState(
    phase: Phase,
    frames: seq<Frame>,
    times: seq<int>,
    target: Option<string>,
    videos: map<string, Video>
  )

  function InitialState(): CameraState
  {
    CameraState(Idle, [], [], None, map[])
  }

  /** A recording thread exists exactly while the camera is started. */
  predicate Coherent(s: CameraState)
  {
    s.target.Some? <==> s.phase == Started
  }

  /**
   * Clearing the event of a running thread makes it write its frames at the
   * estimated rate; a rate that raises is caught inside the thread, and
   * nothing is written.
   */
  function Flushed(s: CameraState): map<string, Video>
  {
    if s.target.None? then s.videos
    else
      var fps := FrameRate(s.times);
      if fps.Ok? then s.videos[s.target.value := Video(s.frames, fps.value)] else s.videos
  }

  /** What `_run` does with one message. */
  function CameraStep(dir: string, name: string, s: CameraState, msg: Option<Message>): (CameraState, Outcome)
  {
    if msg.None? then (s, Continue)
    else
      var m := msg.value;
      if m.msgType == VStr(START) then
        if s.phase == Started then (s, Continue)
        else if s.target.Some? then (s.(frames := [], times := []), Crash("RuntimeError"))
        else (s.(frames := [], times := [], target := Some(VideoFile(dir, name, m)), phase := Started), Continue)
      else if m.msgType == VStr(STOP) then
        if s.phase == Stopped then (s, Continue)
        else (s.(videos := Flushed(s), target := None, phase := Stopped), Continue)
      else if m.msgType == VStr(TERMINATE) then (s.(videos := Flushed(s), target := None), Exit)
      else (s, Continue)
  }

  /** What the recording thread does with one frame read successfully at time t. */
  function Captured(s: CameraState, f: Frame, t: int): CameraState
  {
    if s.target.Some? then s.(frames := s.frames + [f], times := s.times + [t]) else s
  }

  function CaptureAll(s: CameraState, fs: seq<Frame>, ts: seq<int>): CameraState
    requires |fs| == |ts|
    decreases |fs|
  {
    if fs == [] then s else CaptureAll(Captured(s, fs[0], ts[0]), fs[1..], ts[1..])
  }

  /**
   * The thread exists exactly while the camera is started, so the "two start
   * messages" error can never be raised, and every message keeps that so.
   */
  lemma StepKeepsCoherent(dir: string, name: string, s: CameraState, msg: Option<Message>)
    requires Coherent(s)
    ensures CameraStep(dir, name, s, msg).1 == Continue ==> Coherent(CameraStep(dir, name, s, msg).0)
    ensures !CameraStep(dir, name, s, msg).1.Crash?
  {
  }

  /** A second START is ignored, not an error, and so is a second STOP. */
  lemma RepeatIgnored(dir: string, name: string, s: CameraState, m: Message)
    requires (m.msgType == VStr(START) && s.phase == Started) || (m.msgType == VStr(STOP) && s.phase == Stopped)
    ensures CameraStep(dir, name, s, Some(m)) == (s, Continue)
  {
  }

  lemma {:induction false} CaptureAllRecording(s: CameraState, fs: seq<Frame>, ts: seq<int>)
    requires |fs| == |ts| && s.target.Some?
    ensures CaptureAll(s, fs, ts) == s.(frames := s.frames + fs, times := s.times + ts)
    decreases |fs|
  {
    if fs != [] {
      CaptureAllRecording(Captured(s, fs[0], ts[0]), fs[1..], ts[1..]);
      assert s.frames + [fs[0]] + fs[1..] == s.frames + fs;
      assert s.times + [ts[0]] + ts[1..] == s.times + ts;
    }
  }

  /**
   * START, frames captured at increasing times, STOP: exactly one video is
   * added, under the START message's file name, holding those frames in order.
   */
  lemma RecordingSession(dir: string, name: string, s: CameraState, m: Message, fs: seq<Frame>, ts: seq<int>, stop: Message)
    requires Coherent(s) && s.phase != Started
    requires m.msgType == VStr(START) && stop.msgType == VStr(STOP)
    requires |fs| == |ts| && Increasing(ts)
    ensures var s1 := CaptureAll(CameraStep(dir, name, s, Some(m)).0, fs, ts);
      var (s2, out) := CameraStep(dir, name, s1, Some(stop));
      out == Continue && s2.phase == Stopped && s2.target.None? && FrameRate(ts).Ok? &&
      s2.videos == s.videos[VideoFile(dir, name, m) := Video(fs, FrameRate(ts).value)]
  {
    var s0 := CameraStep(dir, name, s, Some(m)).0;
    assert s0.frames == [] && s0.times == [] && s0.target == Some(VideoFile(dir, name, m));
    CaptureAllRecording(s0, fs, ts);
    FrameRateIncreasing(ts);
    assert [] + fs == fs && [] + ts == ts;
  }

  /** Frames read while no recording thread runs are not kept. */
  lemma {:induction false} CaptureAllIdle(s: CameraState, fs: seq<Frame>, ts: seq<int>)
    requires |fs| == |ts| && s.target.None?
    ensures CaptureAll(s, fs, ts) == s
    decreases |fs|
  {
    if fs != [] {
      CaptureAllIdle(s, fs[1..], ts[1..]);
    }
  }

  class CameraDevice {
    /** The camera's own directory (output_path joined with the name). */
    const dir: string
    const name: string
    var phase: Phase
    var frames: seq<Frame>
    var captureTimes: seq<int>
    var target: Option<string>
    ghost var videos: map<string, Video>

    ghost function Snap(): CameraState
      reads this
    {
      CameraState(phase, frames, captureTimes, target, videos)
    }

    constructor (outputPath: string, name: string)
      ensures this.dir == PathJoin(outputPath, name) && this.name == name
      ensures Snap() == InitialState()
    {
      dir := PathJoin(outputPath, name);
      this.name := name;
      phase := Idle;
      frames := [];
      captureTimes := [];
      target := None;
      videos := map[];
    }

    /** `_get_frame_rate`, as the loop over the capture times. */
    method GetFrameRate() returns (r: Result<int>)
      ensures r == FrameRate(captureTimes)
    {
      var diff := Second;
      var i := 1;
      while diff < 5 * Second && |captureTimes| > i
        invariant i >= 1
        invariant FrameRateFrom(captureTimes, diff, i) == FrameRate(captureTimes)
        decreases |captureTimes| - i
      {
        diff := captureTimes[|captureTimes| - 1] - captureTimes[|captureTimes| - 1 - i];
        i := i + 1;
      }
      if diff == 0 {
        return Err("ZeroDivisionError");
      }
      r := Ok(TruncDiv(i * Second, diff));
    }

    /** `_get_realtime_data`: the picked frames and the frame rate reported with them. */
    method GetRealtimeData(duration: int) returns (r: Result<(seq<Frame>, int)>)
      ensures r == RealtimeData(frames, captureTimes, duration)
    {
      var fps := GetFrameRate();
      if fps.Err? {
        return Err(fps.error);
      }
      var data := SliceFrom(frames, -(duration * fps.value));
      if data == [] {
        return Ok(([], fps.value));
      }
      var picked := PickFrames(data, fps.value, duration);
      if picked.Err? {
        return Err(picked.error);
      }
      r := Ok((picked.value, fps.value));
    }

    /** One message of `_run`. */
    method Handle(msg: Option<Message>) returns (outcome: Outcome)
      modifies this
      ensures (Snap(), outcome) == CameraStep(dir, name, old(Snap()), msg)
    {
      outcome := Continue;
      if msg.None? {
        return;
      }
      var m := msg.value;
      if m.msgType == VStr(START) {
        if phase != Started {
          frames := [];
          captureTimes := [];
          if target.Some? {
            return Crash("RuntimeError");
          }
          target := Some(VideoFile(dir, name, m));
          phase := Started;
        }
      } else if m.msgType == VStr(STOP) {
        if phase != Stopped {
          videos := Flushed(Snap());
          target := None;
          phase := Stopped;
        }
      } else if m.msgType == VStr(TERMINATE) {
        videos := Flushed(Snap());
        target := None;
        outcome := Exit;
      }
    }

    /** The recording thread: a frame read successfully at time t is kept while the thread runs. */
    method Capture(f: Frame, t: int)
      modifies this
      ensures Snap() == Captured(old(Snap()), f, t)
    {
      if target.Some? {
        frames := frames + [f];
        captureTimes := captureTimes + [t];
      }
    }
  }
}
