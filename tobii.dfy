// The Tobii Pro Glasses 2 recorder (octopus_sensing/devices/tobiiglasses_streaming.py):
// the common recorder protocol with de-duplicated START and STOP, a SAVE
// branch and a 38-column header, fed with records flattened from the nested
// dictionaries the glasses' controller returns (`__safe_get`).

module Tobii {
  import opened Common
  import opened Messages
  import opened Recording

  /** A JSON-like value from the controller; a dictionary keeps its entries in insertion order. */
  datatype Json = JNull | JNum(r: real) | JStr(s: string) | JList(items: seq<Json>) | JDict(entries: seq<(string, Json)>)

  /** The first entry under a key, as dict lookup finds it. */
  function Lookup(entries: seq<(string, Json)>, key: string): (r: Option<Json>)
    ensures r.None? <==> forall i :: 0 <= i < |entries| ==> entries[i].0 != key
    decreases |entries|
  {
    if entries == [] then None
    else if entries[0].0 == key then Some(entries[0].1)
    else
      var r := Lookup(entries[1..], key);
      assert forall i :: 1 <= i < |entries| ==> entries[i] == entries[1..][i - 1];
      r
  }

  /** `v.get(key, default)`: only a dictionary has `get`; on anything else it raises AttributeError. */
  function Get(v: Json, key: string, default: Json): (r: Result<Json>)
    ensures r.Ok? <==> v.JDict?
  {
    match v
    case JDict(es) => Ok(match Lookup(es, key) case Some(x) => x case None => default)
    case _ => Err("AttributeError")
  }

  /** `[None] * n`. */
  function Nones(n: nat): Json
  {
    JList(Repeat(JNull, n))
  }

  /** `*v` inside a list display: the items of a list, the characters of a string, the keys of a dictionary. */
  function Unpack(v: Json): (r: Result<seq<Json>>)
    ensures v.JList? ==> r == Ok(v.items)
    ensures v.JNull? || v.JNum? ==> r == Err("TypeError")
  {
    match v
    case JList(items) => Ok(items)
    case JStr(s) => Ok(seq(|s|, i requires 0 <= i < |s| => JStr([s[i]])))
    case JDict(es) => Ok(seq(|es|, i requires 0 <= i < |es| => JStr(es[i].0)))
    case _ => Err("TypeError")
  }

  /** Two parts of the record, in order; the first failure is the one raised. */
  function Cat(a: Result<seq<Json>>, b: Result<seq<Json>>): (r: Result<seq<Json>>)
    ensures r.Ok? <==> a.Ok? && b.Ok?
    ensures r.Ok? ==> r.value == a.value + b.value
    ensures a.Err? ==> r == a
  {
    if a.Err? then a else if b.Err? then b else Ok(a.value + b.value)
  }

  /** `[d.get("ts", None), *d.get(key, [None] * n)]` for a dictionary d. */
  function Stamped(d: Json, key: string, n: nat): Result<seq<Json>>
    requires d.JDict?
  {
    Cat(Ok([Get(d, "ts", JNull).value]), Unpack(Get(d, key, Nones(n)).value))
  }

  /** A sub-section read with `Stamped` when it is a dictionary and skipped otherwise. */
  function Section(parent: Json, key: string, n: nat): Result<seq<Json>>
    requires parent.JDict?
  {
    var sub := Get(parent, key, Nones(n + 1)).value;
    if sub.JDict? then Stamped(sub, key, n) else Ok([])
  }

  /** An eye: pupil centre, pupil diameter and gaze direction; the diameter is read even when it is missing. */
  function Eye(eye: Json): Result<seq<Json>>
  {
    if !eye.JDict? then Ok([])
    else
      var pd := Get(eye, "pd", JList([JNull, JNull])).value;
      var diameter := if pd.JDict? then Ok([Get(pd, "ts", JNull).value, Get(pd, "pd", JNull).value]) else Err("AttributeError");
      Cat(Cat(Section(eye, "pc", 3), diameter), Section(eye, "gd", 3))
  }

  function Mems(mems: Json): Result<seq<Json>>
  {
    if mems.JDict? then Cat(Section(mems, "ac", 3), Section(mems, "gy", 3)) else Ok([])
  }

  function GazePosition(gp: Json): Result<seq<Json>>
  {
    if gp.JDict? then Cat(Ok([Get(gp, "ts", JNull).value, Get(gp, "l", JNull).value]), Unpack(Get(gp, "gp", Nones(2)).value))
    else Ok([])
  }

  function Gaze3(gp3: Json): Result<seq<Json>>
  {
    if gp3.JDict? then Stamped(gp3, "gp3", 3) else Ok([])
  }

  /**
   * `__safe_get`: accelerometer, gyroscope, left eye, right eye, gaze
   * position, 3D gaze position, then the wall-clock time.
   */
  function Flatten(data: Json, now: real): (r: Result<seq<Json>>)
    ensures !data.JDict? ==> r == Err("AttributeError")
  {
    if !data.JDict? then Err("AttributeError")
    else
      var mems := Get(data, "mems", Nones(8)).value;
      var left := Get(data, "left_eye", Nones(10)).value;
      var right := Get(data, "right_eye", Nones(10)).value;
      var gp := Get(data, "gp", Nones(4)).value;
      var gp3 := Get(data, "gp3", Nones(4)).value;
      Cat(Cat(Cat(Cat(Cat(Mems(mems), Eye(left)), Eye(right)), GazePosition(gp)), Gaze3(gp3)), Ok([JNum(now)]))
  }

  // ---------------------------------------------------------------- complete records

  function Vec(ts: Json, key: string, v: seq<Json>): Json
  {
    JDict([("ts", ts), (key, JList(v))])
  }

  function EyeRecord(v: seq<Json>): Json
    requires |v| == 10
  {
    JDict([("pc", Vec(v[0], "pc", v[1..4])),
           ("pd", JDict([("ts", v[4]), ("pd", v[5])])),
           ("gd", Vec(v[6], "gd", v[7..10]))])
  }

  /**
   * The record the glasses send when every sensor reported: 8 motion values,
   * 10 for each eye, 4 for the gaze position and 4 for the 3D gaze position.
   */
  function CompleteRecord(mems: seq<Json>, left: seq<Json>, right: seq<Json>, gp: seq<Json>, gp3: seq<Json>): Json
    requires |mems| == 8 && |left| == 10 && |right| == 10 && |gp| == 4 && |gp3| == 4
  {
    JDict([("mems", MemsRecord(mems)), ("left_eye", EyeRecord(left)), ("right_eye", EyeRecord(right)),
           ("gp", GazeRecord(gp)), ("gp3", Gaze3Record(gp3))])
  }

  /** Lookup finds the first entry with the key. */
  lemma {:induction false} LookupAt(entries: seq<(string, Json)>, key: string, i: nat)
    requires i < |entries| && entries[i].0 == key
    requires forall j :: 0 <= j < i ==> entries[j].0 != key
    ensures Lookup(entries, key) == Some(entries[i].1)
    decreases i
  {
    if i > 0 {
      LookupAt(entries[1..], key, i - 1);
    }
  }

  /** The keys of the record are distinct from one another. */
  lemma KeysDistinct()
    ensures "mems" != "left_eye" && "mems" != "right_eye" && "mems" != "gp" && "mems" != "gp3"
    ensures "left_eye" != "right_eye" && "left_eye" != "gp" && "left_eye" != "gp3"
    ensures "right_eye" != "gp" && "right_eye" != "gp3" && "gp" != "gp3"
    ensures "pc" != "pd" && "pc" != "gd" && "pd" != "gd" && "ac" != "gy"
    ensures "ts" != "pc" && "ts" != "pd" && "ts" != "gd" && "ts" != "ac" && "ts" != "gy" && "ts" != "gp3"
    ensures "ts" != "l" && "ts" != "gp" && "l" != "gp"
  {
    assert "left_eye"[0] != "right_eye"[0];
    assert "pc"[0] != "pd"[1] && "pc"[1] != "pd"[1] && "pc"[1] != "gd"[1] && "pd"[0] != "gd"[0];
  }

  /** A sub-section stored as `{"ts": ts, key: [values]}` contributes the stamp and the values. */
  lemma SectionVec(entries: seq<(string, Json)>, i: nat, key: string, ts: Json, vs: seq<Json>)
    requires key != "ts" && i < |entries| && entries[i] == (key, Vec(ts, key, vs))
    requires forall j :: 0 <= j < i ==> entries[j].0 != key
    ensures Section(JDict(entries), key, |vs|) == Ok([ts] + vs)
  {
    LookupAt(entries, key, i);
    var d := Vec(ts, key, vs);
    LookupAt(d.entries, "ts", 0);
    LookupAt(d.entries, key, 1);
  }

  /** The ten values of an eye are its centre stamp and vector, its diameter pair, and its direction stamp and vector. */
  lemma EyeParts(v: seq<Json>)
    requires |v| == 10
    ensures [v[0]] + v[1..4] + [v[4], v[5]] + ([v[6]] + v[7..10]) == v
  {
    var w := [v[0]] + v[1..4] + [v[4], v[5]] + ([v[6]] + v[7..10]);
    assert |w| == 10;
    forall i | 0 <= i < 10
      ensures w[i] == v[i]
    {
    }
  }

  lemma MemsParts(v: seq<Json>)
    requires |v| == 8
    ensures [v[0]] + v[1..4] + ([v[4]] + v[5..8]) == v
  {
    var w := [v[0]] + v[1..4] + ([v[4]] + v[5..8]);
    assert |w| == 8;
    forall i | 0 <= i < 8
      ensures w[i] == v[i]
    {
    }
  }

  lemma EyeComplete(v: seq<Json>)
    requires |v| == 10
    ensures Eye(EyeRecord(v)) == Ok(v)
  {
    KeysDistinct();
    var es := EyeRecord(v).entries;
    SectionVec(es, 0, "pc", v[0], v[1..4]);
    SectionVec(es, 2, "gd", v[6], v[7..10]);
    LookupAt(es, "pd", 1);
    var pd := es[1].1;
    LookupAt(pd.entries, "ts", 0);
    LookupAt(pd.entries, "pd", 1);
    EyeParts(v);
  }

  function MemsRecord(v: seq<Json>): Json
    requires |v| == 8
  {
    JDict([("ac", Vec(v[0], "ac", v[1..4])), ("gy", Vec(v[4], "gy", v[5..8]))])
  }

  function GazeRecord(v: seq<Json>): Json
    requires |v| == 4
  {
    JDict([("ts", v[0]), ("l", v[1]), ("gp", JList(v[2..4]))])
  }

  function Gaze3Record(v: seq<Json>): Json
    requires |v| == 4
  {
    Vec(v[0], "gp3", v[1..4])
  }

  lemma MemsComplete(v: seq<Json>)
    requires |v| == 8
    ensures Mems(MemsRecord(v)) == Ok(v)
  {
    KeysDistinct();
    var es := MemsRecord(v).entries;
    SectionVec(es, 0, "ac", v[0], v[1..4]);
    SectionVec(es, 1, "gy", v[4], v[5..8]);
    MemsParts(v);
  }

  lemma GazeComplete(v: seq<Json>)
    requires |v| == 4
    ensures GazePosition(GazeRecord(v)) == Ok(v)
  {
    KeysDistinct();
    var es := GazeRecord(v).entries;
    LookupAt(es, "ts", 0);
    LookupAt(es, "l", 1);
    LookupAt(es, "gp", 2);
    assert v == [v[0], v[1]] + v[2..4];
  }

  lemma Gaze3Complete(v: seq<Json>)
    requires |v| == 4
    ensures Gaze3(Gaze3Record(v)) == Ok(v)
  {
    KeysDistinct();
    var es := Gaze3Record(v).entries;
    LookupAt(es, "ts", 0);
    LookupAt(es, "gp3", 1);
    assert v == [v[0]] + v[1..4];
  }

  /** Flatten of a record whose five sections each read successfully: their values in order, then the time. */
  lemma FlattenOfSections(data: Json, now: real, ms: seq<Json>, l: seq<Json>, r: seq<Json>, g: seq<Json>, g3: seq<Json>)
    requires data.JDict?
    requires Mems(Get(data, "mems", Nones(8)).value) == Ok(ms)
    requires Eye(Get(data, "left_eye", Nones(10)).value) == Ok(l)
    requires Eye(Get(data, "right_eye", Nones(10)).value) == Ok(r)
    requires GazePosition(Get(data, "gp", Nones(4)).value) == Ok(g)
    requires Gaze3(Get(data, "gp3", Nones(4)).value) == Ok(g3)
    ensures Flatten(data, now) == Ok(ms + l + r + g + g3 + [JNum(now)])
  {
  }

  /** Each section of a complete record is found under its key. */
  lemma CompleteSections(mems: seq<Json>, left: seq<Json>, right: seq<Json>, gp: seq<Json>, gp3: seq<Json>)
    requires |mems| == 8 && |left| == 10 && |right| == 10 && |gp| == 4 && |gp3| == 4
    ensures var d := CompleteRecord(mems, left, right, gp, gp3);
      Get(d, "mems", Nones(8)) == Ok(MemsRecord(mems)) &&
      Get(d, "left_eye", Nones(10)) == Ok(EyeRecord(left)) && Get(d, "right_eye", Nones(10)) == Ok(EyeRecord(right)) &&
      Get(d, "gp", Nones(4)) == Ok(GazeRecord(gp)) && Get(d, "gp3", Nones(4)) == Ok(Gaze3Record(gp3))
  {
    KeysDistinct();
    var es := CompleteRecord(mems, left, right, gp, gp3).entries;
    LookupAt(es, "mems", 0);
    LookupAt(es, "left_eye", 1);
    LookupAt(es, "right_eye", 2);
    LookupAt(es, "gp", 3);
    LookupAt(es, "gp3", 4);
  }

  /** A complete record flattens to its 36 values in header order, followed by the time. */
  lemma FlattenComplete(mems: seq<Json>, left: seq<Json>, right: seq<Json>, gp: seq<Json>, gp3: seq<Json>, now: real)
    requires |mems| == 8 && |left| == 10 && |right| == 10 && |gp| == 4 && |gp3| == 4
    ensures Flatten(CompleteRecord(mems, left, right, gp, gp3), now) == Ok(mems + left + right + gp + gp3 + [JNum(now)])
    ensures |mems + left + right + gp + gp3 + [JNum(now)]| + 1 == |Header|
  {
    var d := CompleteRecord(mems, left, right, gp, gp3);
    CompleteSections(mems, left, right, gp, gp3);
    MemsComplete(mems);
    EyeComplete(left);
    EyeComplete(right);
    GazeComplete(gp);
    Gaze3Complete(gp3);
    FlattenOfSections(d, now, mems, left, right, gp, gp3);
  }

  /** An eye section without a pupil diameter makes `__safe_get` raise AttributeError. */
  lemma MissingPupilDiameter(mems: seq<Json>, left: seq<Json>, right: seq<Json>, gp: seq<Json>, gp3: seq<Json>, now: real)
    requires |mems| == 8 && |left| == 10 && |right| == 10 && |gp| == 4 && |gp3| == 4
    ensures var es := CompleteRecord(mems, left, right, gp, gp3).entries;
      var leftNoPd := JDict([("pc", Vec(left[0], "pc", left[1..4])), ("gd", Vec(left[6], "gd", left[7..10]))]);
      Flatten(JDict([es[0], ("left_eye", leftNoPd)] + es[2..]), now) == Err("AttributeError")
  {
    KeysDistinct();
    var es := CompleteRecord(mems, left, right, gp, gp3).entries;
    var leftNoPd := JDict([("pc", Vec(left[0], "pc", left[1..4])), ("gd", Vec(left[6], "gd", left[7..10]))]);
    var data := [es[0], ("left_eye", leftNoPd)] + es[2..];
    LookupAt(data, "mems", 0);
    LookupAt(data, "left_eye", 1);
    MemsComplete(mems);
    SectionVec(leftNoPd.entries, 0, "pc", left[0], left[1..4]);
    assert Lookup(leftNoPd.entries, "pd").None?;
    assert Eye(leftNoPd).Err?;
  }

  /** A missing top-level section is left out, shortening the record. */
  lemma MissingMems(left: seq<Json>, right: seq<Json>, gp: seq<Json>, gp3: seq<Json>, now: real)
    requires |left| == 10 && |right| == 10 && |gp| == 4 && |gp3| == 4
    ensures var noMems := [("left_eye", EyeRecord(left)), ("right_eye", EyeRecord(right)),
                           ("gp", GazeRecord(gp)), ("gp3", Gaze3Record(gp3))];
      Flatten(JDict(noMems), now) == Ok(left + right + gp + gp3 + [JNum(now)])
  {
    KeysDistinct();
    var es := [("left_eye", EyeRecord(left)), ("right_eye", EyeRecord(right)),
               ("gp", GazeRecord(gp)), ("gp3", Gaze3Record(gp3))];
    assert Lookup(es, "mems").None?;
    assert Mems(Nones(8)) == Ok([]);
    LookupAt(es, "left_eye", 0);
    LookupAt(es, "right_eye", 1);
    LookupAt(es, "gp", 2);
    LookupAt(es, "gp3", 3);
    EyeComplete(left);
    EyeComplete(right);
    GazeComplete(gp);
    Gaze3Complete(gp3);
    FlattenOfSections(JDict(es), now, [], left, right, gp, gp3);
    assert [] + left == left;
  }

  // ---------------------------------------------------------------- recording

  const Header: seq<string> := [
    "ac_ts", "ac_x", "ac_y", "ac_z",
    "gy_ts", "gy_x", "gy_y", "gy_z",
    "left_eye_pc_ts", "left_eye_pc_x", "left_eye_pc_y", "left_eye_pc_z",
    "left_eye_pd_ts", "left_eye_pd",
    "left_eye_gd_ts", "left_eye_gd_x", "left_eye_gd_y", "left_eye_gd_z",
    "right_eye_pc_ts", "right_eye_pc_x", "right_eye_pc_y", "right_eye_pc_z",
    "right_eye_pd_ts", "right_eye_pd",
    "right_eye_gd_ts", "right_eye_gd_x", "right_eye_gd_y", "right_eye_gd_z",
    "gp_ts", "gp_l", "gp_x", "gp_y",
    "gp3_ts", "gp3_x", "gp3_y", "gp3_z",
    "timestamp",
    "trigger"]

  function HeaderRow(): Row
  {
    seq(|Header|, i requires 0 <= i < |Header| => Text(Header[i]))
  }

  function DeviceConfig(name: string, outputPath: string, savingMode: int): (cfg: Config)
    ensures cfg.dedup && cfg.handlesSave && cfg.clearsAfterSeparatedStop && cfg.watchesStream
    ensures cfg.header == Some(HeaderRow()) && |cfg.header.value| == 38 && !cfg.triggerColumn
    ensures cfg.name == name && cfg.outputPath == PathJoin(outputPath, name) && cfg.savingMode == savingMode
  {
    Config(name, PathJoin(outputPath, name), savingMode, true, true, true, true, Some(HeaderRow()), false)
  }

  /** The constructor sets `_experiment_id` to None. */
  const InitialExperimentId: Option<Value> := Some(VNone)

  /** A flattened value as csv writes it; a nested list or dictionary is left as an empty cell. */
  function ToCell(v: Json): Cell
  {
    match v
    case JNull => Empty
    case JNum(r) => Real(r)
    case JStr(s) => Text(s)
    case _ => Empty
  }

  function ToRow(vs: seq<Json>): (row: Row)
    ensures |row| == |vs| && forall i :: 0 <= i < |vs| ==> row[i] == ToCell(vs[i])
  {
    seq(|vs|, i requires 0 <= i < |vs| => ToCell(vs[i]))
  }

  /** `time.sleep(1/sampling_rate)`: a zero rate divides by zero and a negative one is a negative sleep. */
  function Pause(samplingRate: int): Result<()>
  {
    if samplingRate == 0 then Err("ZeroDivisionError")
    else if samplingRate < 0 then Err("ValueError")
    else Ok(())
  }

  /**
   * One pass of `_stream_loop`: the flattened record is buffered with the
   * pending trigger, and the loop then sleeps for one sampling period. When
   * flattening raises, the streaming thread dies and nothing is buffered;
   * when the sleep raises, the thread dies after buffering the record. The
   * result is the buffered row when the loop goes on, else the error that
   * ends the thread.
   */
  method StreamRecord(rec: Recorder, data: Json, now: real, samplingRate: int) returns (r: Result<Row>)
    modifies rec
    ensures var flat := Flatten(data, now);
      flat.Err? ==> r == Err(flat.error) && rec.Snap() == old(rec.Snap())
    ensures var flat := Flatten(data, now);
      flat.Ok? ==> rec.Snap() == Sample(rec.cfg, old(rec.Snap()), ToRow(flat.value))
    ensures r.Ok? <==> Flatten(data, now).Ok? && samplingRate > 0
    ensures r.Ok? ==> r.value == ToRow(Flatten(data, now).value)
    ensures Flatten(data, now).Ok? && samplingRate == 0 ==> r == Err("ZeroDivisionError")
    ensures Flatten(data, now).Ok? && samplingRate < 0 ==> r == Err("ValueError")
  {
    var flat := Flatten(data, now);
    if flat.Err? {
      return Err(flat.error);
    }
    var row := ToRow(flat.value);
    rec.Record(row);
    var pause := Pause(samplingRate);
    if pause.Err? {
      return Err(pause.error);
    }
    r := Ok(row);
  }

  /** `_get_realtime_data`: the last duration * rate records (no channel list is given). */
  function RealtimeData(buffer: seq<Row>, duration: int, samplingRate: int): (rows: seq<Row>)
    ensures duration > 0 && samplingRate > 0 ==>
      rows == buffer[|buffer| - (if duration * samplingRate < |buffer| then duration * samplingRate else |buffer|)..]
    ensures duration == 0 ==> rows == buffer
  {
    LastItems(buffer, duration * samplingRate);
    LatestRows(buffer, duration, samplingRate)
  }
}
