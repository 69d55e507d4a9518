// The Skinos sensor (octopus_sensing/devices/skinos_streaming.py): four
// channels of three hexadecimal digits each are read from the serial port,
// turned into signed 12-bit readings and scaled; the recorder de-duplicates
// START and STOP, has no SAVE branch, does not empty the buffer after a
// separated-mode STOP, and every row ends with a trigger cell.

module Skinos {
  import opened Common
  import opened Messages
  import opened Recording

  // ---------------------------------------------------------------- channel text

  predicate IsHexDigit(c: char)
  {
    ('0' <= c <= '9') || ('a' <= c <= 'f') || ('A' <= c <= 'F')
  }

  function HexDigitValue(c: char): (d: nat)
    requires IsHexDigit(c)
    ensures d < 16
  {
    if '0' <= c <= '9' then (c as int) - ('0' as int)
    else if 'a' <= c <= 'f' then (c as int) - ('a' as int) + 10
    else (c as int) - ('A' as int) + 10
  }

  predicate AllHex(s: string)
  {
    forall i :: 0 <= i < |s| ==> IsHexDigit(s[i])
  }

  function HexValue(s: string): (v: nat)
    requires AllHex(s)
    ensures v < Pow16(|s|)
    decreases |s|
  {
    if s == [] then 0 else HexValue(s[..|s| - 1]) * 16 + HexDigitValue(s[|s| - 1])
  }

  function Pow16(n: nat): (p: nat)
    ensures p >= 1
  {
    if n == 0 then 1 else 16 * Pow16(n - 1)
  }

  /**
   * The digits of an int() body in base 16: an optional 0x or 0X prefix is
   * dropped, and so is one underscore right after it.
   */
  function HexDigitsPart(u: string): (d: string)
    ensures |d| <= |u| && d == u[|u| - |d|..]
  {
    if |u| >= 2 && u[0] == '0' && (u[1] == 'x' || u[1] == 'X') then
      if |u| >= 3 && u[2] == '_' then u[3..] else u[2..]
    else u
  }

  /**
   * int(s, 16): white space around, an optional sign, an optional 0x or 0X
   * prefix, then hexadecimal digits, which single underscores may separate;
   * otherwise ValueError.
   */
  function PyIntHex(s: string): (r: Result<int>)
  {
    PyIntHexStripped(Strip(s))
  }

  /** int(t, 16) of the text once its surrounding white space is gone. */
  function PyIntHexStripped(t: string): (r: Result<int>)
  {
    if t == [] then Err("ValueError")
    else
      var digits := HexDigitsPart(if t[0] == '-' || t[0] == '+' then t[1..] else t);
      if Grouped(digits) && AllHex(Ungrouped(digits)) then
        var v := HexValue(Ungrouped(digits));
        Ok(if t[0] == '-' then -(v as int) else v)
      else Err("ValueError")
  }

  /** A run of hexadecimal digits is trivially grouped, and has no underscore to drop. */
  lemma HexGrouped(s: string)
    requires s != [] && AllHex(s)
    ensures Grouped(s) && Ungrouped(s) == s
  {
    forall i | 0 <= i < |s| ensures s[i] != '_' { assert IsHexDigit(s[i]); }
    UngroupedOfPlain(s);
  }

  /** int() in base 16 of a sign-free text without surrounding white space reads its digits part. */
  lemma PyIntHexUnsigned(u: string)
    requires u != [] && !IsSpace(u[0]) && !IsSpace(u[|u| - 1]) && u[0] != '-' && u[0] != '+'
    requires Grouped(HexDigitsPart(u)) && AllHex(Ungrouped(HexDigitsPart(u)))
    ensures PyIntHex(u) == Ok(HexValue(Ungrouped(HexDigitsPart(u))))
  {
    StripNoSpace(u);
  }

  /** int() in base 16 reads back a sign-free run of hexadecimal digits as its value. */
  lemma PyIntHexOfDigits(s: string)
    requires s != [] && AllHex(s)
    ensures PyIntHex(s) == Ok(HexValue(s))
  {
    assert !IsSpace(s[0]) && !IsSpace(s[|s| - 1]) && s[0] != '-' && s[0] != '+' by {
      assert IsHexDigit(s[0]) && IsHexDigit(s[|s| - 1]);
    }
    assert HexDigitsPart(s) == s by {
      if |s| >= 2 { assert IsHexDigit(s[1]); }
    }
    HexGrouped(s);
    PyIntHexUnsigned(s);
  }

  /**
   * The 0x and 0X prefixes, with or without an underscore after them, change
   * nothing: int('0x_1f', 16) == int('1f', 16) == 31.
   */
  lemma PyIntHexOfPrefixed(u: string)
    requires |u| >= 3 && u[0] == '0' && (u[1] == 'x' || u[1] == 'X')
    requires var digits := if u[2] == '_' then u[3..] else u[2..]; digits != [] && AllHex(digits)
    ensures PyIntHex(u) == Ok(HexValue(if u[2] == '_' then u[3..] else u[2..]))
  {
    var digits := if u[2] == '_' then u[3..] else u[2..];
    assert IsHexDigit(digits[|digits| - 1]) && u[|u| - 1] == digits[|digits| - 1];
    assert HexDigitsPart(u) == digits;
    HexGrouped(digits);
    PyIntHexUnsigned(u);
  }

  lemma UngroupedPair(a: char, b: char)
    requires a != '_' && b != '_'
    ensures Grouped([a, '_', b]) && Ungrouped([a, '_', b]) == [a, b]
  {
    var u := [a, '_', b];
    assert Ungrouped(u[2..]) == [b];
    assert Ungrouped(u[1..]) == [b];
  }

  lemma HexPairValue(a: char, b: char)
    requires IsHexDigit(a) && IsHexDigit(b)
    ensures AllHex([a, b]) && HexValue([a, b]) == 16 * HexDigitValue(a) + HexDigitValue(b)
  {
    assert [a, b][..1] == [a] && [a][..0] == [];
  }

  /** An underscore between two hexadecimal digits is dropped: int('1_2', 16) == 0x12. */
  lemma PyIntHexOfUnderscore(u: string)
    requires |u| == 3 && u[1] == '_' && IsHexDigit(u[0]) && IsHexDigit(u[2])
    ensures PyIntHex(u) == Ok(16 * HexDigitValue(u[0]) + HexDigitValue(u[2]))
  {
    var a, b := u[0], u[2];
    assert !IsSpace(a) && !IsSpace(b) && a != '-' && a != '+' && a != '_' && b != '_';
    UngroupedPair(a, b);
    HexPairValue(a, b);
    assert [a, '_', b] == u;
    assert HexDigitsPart(u) == u;
    PyIntHexUnsigned(u);
  }

  /** Whether Python's repr of a byte shows the byte itself (printable, and neither a quote nor a backslash). */
  predicate ShownAsIs(b: byte)
  {
    32 <= b < 127 && b != 39 && b != 92
  }

  /**
   * `int(repr(field)[2:5], 16)`: the repr of a bytes object is b'...', so
   * characters 2 to 4 are the field itself only when it holds three bytes
   * shown as they are; otherwise they include an escape or the closing quote,
   * and the parse fails.
   */
  function ChannelValue(field: seq<byte>): (r: Result<int>)
    ensures r.Ok? ==> |field| == 3
    ensures |field| == 3 && (forall i :: 0 <= i < 3 ==> IsHexDigit(field[i] as char)) ==>
      r == Ok(HexValue(seq(3, i requires 0 <= i < 3 => field[i] as char)))
    ensures |field| == 3 && field[0] == '0' as byte && (field[1] == 'x' as byte || field[1] == 'X' as byte) &&
            IsHexDigit(field[2] as char) ==>
      r == Ok(HexDigitValue(field[2] as char))
    ensures |field| == 3 && field[1] == '_' as byte && IsHexDigit(field[0] as char) && IsHexDigit(field[2] as char) ==>
      r == Ok(16 * HexDigitValue(field[0] as char) + HexDigitValue(field[2] as char))
  {
    if |field| == 3 && ShownAsIs(field[0]) && ShownAsIs(field[1]) && ShownAsIs(field[2]) then
      var text := seq(3, i requires 0 <= i < 3 => field[i] as char);
      if AllHex(text) then
        PyIntHexOfDigits(text);
        PyIntHex(text)
      else if text[0] == '0' && (text[1] == 'x' || text[1] == 'X') && IsHexDigit(text[2]) then
        ChannelTextPrefixed(text);
        PyIntHex(text)
      else if text[1] == '_' && IsHexDigit(text[0]) && IsHexDigit(text[2]) then
        PyIntHexOfUnderscore(text);
        PyIntHex(text)
      else PyIntHex(text)
    else Err("ValueError")
  }

  /** A channel's text of a 0x or 0X prefix and one digit reads as that digit. */
  lemma ChannelTextPrefixed(text: string)
    requires |text| == 3 && text[0] == '0' && (text[1] == 'x' || text[1] == 'X') && IsHexDigit(text[2])
    ensures PyIntHex(text) == Ok(HexDigitValue(text[2]))
  {
    assert text[2..] == [text[2]] && [text[2]][..0] == [];
    assert HexValue(text[2..]) == HexDigitValue(text[2]);
    PyIntHexOfPrefixed(text);
  }

  /** The four channels of a read: bytes 0-2, 4-6, 8-10 and 12-14; the first read is taken as all zeros. */
  function Channels(read: seq<byte>, first: bool): (r: Result<seq<int>>)
    ensures first ==> r == Ok([0, 0, 0, 0])
    ensures r.Ok? ==> |r.value| == 4
  {
    if first then Ok([0, 0, 0, 0])
    else
      var c1 := ChannelValue(Slice(read, 0, 3));
      var c2 := ChannelValue(Slice(read, 4, 7));
      var c3 := ChannelValue(Slice(read, 8, 11));
      var c4 := ChannelValue(Slice(read, 12, 15));
      if c1.Err? then Err(c1.error)
      else if c2.Err? then Err(c2.error)
      else if c3.Err? then Err(c3.error)
      else if c4.Err? then Err(c4.error)
      else Ok([c1.value, c2.value, c3.value, c4.value])
  }

  // ---------------------------------------------------------------- readings

  /** A 12-bit word read as two's complement. */
  function Signed12(v: int): (s: int)
    requires 0 <= v < 4096
    ensures -2048 <= s < 2048 && (s - v) % 4096 == 0
    ensures s >= 0 <==> v < 2048
  {
    if v < 2048 then v else v - 4096
  }

  /** The scaling of `_stream_loop`: v / 500 below 2048, and -((4096 - v) / 500) from 2048 on. */
  function Scaled(v: int): real
  {
    if v < 2048 then (v as real) / 500.0 else -(((4096 - v) as real) / 500.0)
  }

  /** For a 12-bit word the scaling is the two's-complement reading divided by 500. */
  lemma ScaledIsSigned(v: int)
    requires 0 <= v < 4096
    ensures Scaled(v) == (Signed12(v) as real) / 500.0
  {
  }

  /** The row of one read, before the trigger cell. */
  function FrameRow(channels: seq<int>, time: string): (row: Row)
    requires |channels| == 4
    ensures |row| == 5 && row[0] == Text(time)
    ensures forall i :: 1 <= i < 5 ==> row[i] == Real(Scaled(channels[i - 1]))
  {
    [Text(time), Real(Scaled(channels[0])), Real(Scaled(channels[1])), Real(Scaled(channels[2])), Real(Scaled(channels[3]))]
  }

  /**
   * The rows `_stream_loop` produces from the reads from index i on (read 0
   * forced to zeros), and the exception that ended the thread, if any.
   */
  function StreamRows(chunks: seq<seq<byte>>, times: seq<string>, i: nat): (r: (seq<Row>, Option<string>))
    requires |times| == |chunks| && i <= |chunks|
    ensures |r.0| <= |chunks| - i && (r.1.None? ==> |r.0| == |chunks| - i)
    decreases |chunks| - i
  {
    if i == |chunks| then ([], None)
    else
      var chs := Channels(chunks[i], i == 0);
      if chs.Err? then ([], Some(chs.error))
      else
        var rest := StreamRows(chunks, times, i + 1);
        ([FrameRow(chs.value, times[i])] + rest.0, rest.1)
  }

  /** The first row holds zeros on every channel, whatever was read. */
  lemma FirstRowIsZero(chunks: seq<seq<byte>>, times: seq<string>)
    requires |times| == |chunks| && chunks != []
    ensures var rows := StreamRows(chunks, times, 0).0;
      rows != [] && rows[0] == [Text(times[0]), Real(0.0), Real(0.0), Real(0.0), Real(0.0)]
  {
  }

  // ---------------------------------------------------------------- recording

  const Header: seq<string> := ["time stamp", "ch1", "ch2", "ch3", "ch4", "label" + "trigger"]

  function HeaderRow(): Row
  {
    seq(|Header|, i requires 0 <= i < |Header| => Text(Header[i]))
  }

  function DeviceConfig(name: string, outputPath: string, savingMode: int): (cfg: Config)
    ensures cfg.dedup && !cfg.handlesSave && !cfg.clearsAfterSeparatedStop && !cfg.watchesStream
    ensures cfg.header == Some(HeaderRow()) && cfg.triggerColumn
    ensures cfg.name == name && cfg.outputPath == PathJoin(outputPath, name) && cfg.savingMode == savingMode
  {
    Config(name, PathJoin(outputPath, name), savingMode, true, false, false, false, Some(HeaderRow()), true)
  }

  /** `_experiment_id` is not assigned before the first START or STOP. */
  const InitialExperimentId: Option<Value> := None

  /** Every stored row has the six columns the header names, the last one the trigger or empty. */
  lemma RowsFitHeader(name: string, outputPath: string, savingMode: int, trigger: Option<string>, channels: seq<int>, time: string)
    requires |channels| == 4
    ensures var row := Marked(DeviceConfig(name, outputPath, savingMode), trigger, FrameRow(channels, time));
      |row| == |Header| == 6 && row[5] == (if trigger.Some? then Text(trigger.value) else Empty)
  {
  }

  /** A SAVE message is ignored. */
  lemma SaveIgnored(name: string, outputPath: string, savingMode: int, s: Snapshot, e: Value)
    ensures Step(DeviceConfig(name, outputPath, savingMode), s, Some(SaveMessage(e)), true) == (s, Continue)
  {
  }

  /**
   * `_stream_loop` over a series of chunks: every read is recorded until one
   * of them cannot be parsed, which ends the streaming thread with that error.
   */
  method Stream(rec: Recorder, chunks: seq<seq<byte>>, times: seq<string>) returns (error: Option<string>)
    requires |times| == |chunks|
    modifies rec
    ensures error == StreamRows(chunks, times, 0).1
    ensures rec.Snap() == SampleAll(rec.cfg, old(rec.Snap()), StreamRows(chunks, times, 0).0)
  {
    ghost var start := rec.Snap();
    ghost var done: seq<Row> := [];
    StreamedNone(rec.cfg, start, chunks, times);
    var i := 0;
    while i < |chunks|
      invariant i <= |chunks| && Streamed(rec.cfg, start, rec.Snap(), chunks, times, i, done)
    {
      error, done := StreamStep(rec, chunks, times, i, start, done);
      if error.Some? {
        return;
      }
      i := i + 1;
    }
    StreamedAll(rec.cfg, start, rec.Snap(), chunks, times, done);
    error := None;
  }

  /** The reads before i have been recorded as `done`, and the rest of the stream is still to come. */
  ghost predicate Streamed(cfg: Config, start: Snapshot, now: Snapshot, chunks: seq<seq<byte>>, times: seq<string>,
                           i: nat, done: seq<Row>)
  {
    |times| == |chunks| && i <= |chunks| &&
    StreamRows(chunks, times, 0).0 == done + StreamRows(chunks, times, i).0 &&
    StreamRows(chunks, times, 0).1 == StreamRows(chunks, times, i).1 &&
    now == SampleAll(cfg, start, done)
  }

  /** Before the first read nothing has been recorded. */
  lemma StreamedNone(cfg: Config, start: Snapshot, chunks: seq<seq<byte>>, times: seq<string>)
    requires |times| == |chunks|
    ensures Streamed(cfg, start, start, chunks, times, 0, [])
  {
    assert [] + StreamRows(chunks, times, 0).0 == StreamRows(chunks, times, 0).0;
  }

  /** Once every read has been taken, the stream ended without an error and all its rows were recorded. */
  lemma StreamedAll(cfg: Config, start: Snapshot, now: Snapshot, chunks: seq<seq<byte>>, times: seq<string>, done: seq<Row>)
    requires Streamed(cfg, start, now, chunks, times, |chunks|, done)
    ensures StreamRows(chunks, times, 0) == (done, None)
    ensures now == SampleAll(cfg, start, StreamRows(chunks, times, 0).0)
  {
    assert done + [] == done;
  }

  /** One pass of `_stream_loop`'s body: the read is recorded, or its exception ends the thread. */
  method StreamStep(rec: Recorder, chunks: seq<seq<byte>>, times: seq<string>, i: nat,
                    ghost start: Snapshot, ghost done: seq<Row>)
    returns (failure: Option<string>, ghost done': seq<Row>)
    requires i < |chunks| && Streamed(rec.cfg, start, rec.Snap(), chunks, times, i, done)
    modifies rec
    ensures failure.Some? ==> failure == StreamRows(chunks, times, 0).1
    ensures failure.Some? ==> rec.Snap() == old(rec.Snap()) == SampleAll(rec.cfg, start, StreamRows(chunks, times, 0).0)
    ensures failure.None? ==> Streamed(rec.cfg, start, rec.Snap(), chunks, times, i + 1, done')
  {
    var row;
    row, failure := ReadRow(chunks, times, i);
    if failure.Some? {
      assert done + [] == done;
      return failure, done;
    }
    Follows(done, row, StreamRows(chunks, times, i + 1).0);
    RecordNext(rec, start, done, row);
    done' := done + [row];
  }

  /** One read of `_stream_loop`: its row, or the exception that ends the thread there. */
  method ReadRow(chunks: seq<seq<byte>>, times: seq<string>, i: nat) returns (row: Row, failure: Option<string>)
    requires |times| == |chunks| && i < |chunks|
    ensures failure.Some? ==> StreamRows(chunks, times, i) == ([], failure)
    ensures failure.None? ==>
      StreamRows(chunks, times, i) == ([row] + StreamRows(chunks, times, i + 1).0, StreamRows(chunks, times, i + 1).1)
  {
    var chs := Channels(chunks[i], i == 0);
    if chs.Err? {
      return [], Some(chs.error);
    }
    row := FrameRow(chs.value, times[i]);
    failure := None;
  }

  /** Concatenation regrouped around one element. */
  lemma Follows<T>(done: seq<T>, x: T, rest: seq<T>)
    ensures done + ([x] + rest) == (done + [x]) + rest
  {
  }

  /** Recording one more row continues a run of samples taken since `start`. */
  method RecordNext(rec: Recorder, ghost start: Snapshot, ghost done: seq<Row>, row: Row)
    requires rec.Snap() == SampleAll(rec.cfg, start, done)
    modifies rec
    ensures rec.Snap() == SampleAll(rec.cfg, start, done + [row])
  {
    SampleAllSnoc(rec.cfg, start, done, row);
    rec.Record(row);
  }

  /** `_get_monitoring_data`: the last three seconds of rows. */
  function MonitoringData(buffer: seq<Row>, samplingRate: int): (rows: seq<Row>)
    ensures samplingRate > 0 ==>
      rows == buffer[|buffer| - (if 3 * samplingRate < |buffer| then 3 * samplingRate else |buffer|)..]
    ensures samplingRate == 0 ==> rows == buffer
  {
    LastItems(buffer, 3 * samplingRate);
    LatestRows(buffer, 3, samplingRate)
  }
}
