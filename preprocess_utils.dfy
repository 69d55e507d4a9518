// Offline preprocessing helpers (octopus_sensing/preprocessing/utils.py):
// reading a recorded CSV file back, cutting a continuous recording into
// trials at its START / STOP triggers, and resampling every second of data
// to a fixed number of samples.
//
// A file is given as the rows csv.reader yields, each a list of cell strings.
// Converting cells to float32 and time stamps to datetime objects is not
// modelled: the loaders keep the cells as text, and `Resample` takes the
// time stamps already converted to microseconds.

module PreprocessUtils {
  import opened Common

  /** One CSV row as csv.reader yields it. */
  type Row = seq<string>

  /** Python's row[lo:hi] for every row. */
  function Columns(rows: seq<Row>, lo: int, hi: int): (r: seq<Row>)
    ensures |r| == |rows|
  {
    if rows == [] then [] else Columns(rows[..|rows| - 1], lo, hi) + [Slice(rows[|rows| - 1], lo, hi)]
  }

  /** Row i of the columns is row[lo:hi] of row i. */
  lemma {:induction false} ColumnsAt(rows: seq<Row>, lo: int, hi: int, i: nat)
    requires i < |rows|
    ensures Columns(rows, lo, hi)[i] == Slice(rows[i], lo, hi)
  {
    if i < |rows| - 1 {
      ColumnsAt(rows[..|rows| - 1], lo, hi, i);
    }
  }

  lemma {:induction false} ColumnsCons(row: Row, rows: seq<Row>, lo: int, hi: int)
    ensures Columns([row] + rows, lo, hi) == [Slice(row, lo, hi)] + Columns(rows, lo, hi)
  {
    if rows != [] {
      var all := [row] + rows;
      assert all[..|all| - 1] == [row] + rows[..|rows| - 1];
      ColumnsCons(row, rows[..|rows| - 1], lo, hi);
    } else {
      assert [row] + rows == [row];
    }
  }

  /** The time cell of a row, or nothing for the loaders that read no time column. */
  function TimeCell(row: Row, timeCol: Option<nat>): seq<string>
    requires timeCol.Some? ==> timeCol.value < |row|
  {
    if timeCol.Some? then [row[timeCol.value]] else []
  }

  // ---------------------------------------------------------------- load_all_samples

  datatype Samples = Samples(data: seq<Row>, times: seq<string>)

  /**
   * The channel cells and the time cell of each of `rows`, in order; reading
   * a time cell past the end of its row raises IndexError.
   */
  function ReadRows(rows: seq<Row>, lo: int, hi: int, timeCol: Option<nat>): (r: Result<Samples>)
    ensures r.Ok? <==> Timed(rows, timeCol)
    ensures r.Err? ==> r.error == "IndexError"
    ensures r.Ok? ==> r.value.data == Columns(rows, lo, hi)
    ensures r.Ok? ==> r.value.times == TimeCells(rows, timeCol)
  {
    if rows == [] then Ok(Samples([], []))
    else
      var last := rows[|rows| - 1];
      var before := ReadRows(rows[..|rows| - 1], lo, hi, timeCol);
      if before.Err? then before
      else if timeCol.Some? && timeCol.value >= |last| then Err("IndexError")
      else Ok(Samples(before.value.data + [Slice(last, lo, hi)], before.value.times + TimeCell(last, timeCol)))
  }

  /**
   * `load_all_samples`: every row but the first (the header), read as
   * `ReadRows` says. `timeCol` is None for the variant that reads no time column.
   */
  method LoadAllSamples(rows: seq<Row>, lo: int, hi: int, timeCol: Option<nat>) returns (r: Result<Samples>)
    ensures r == ReadRows(SliceFrom(rows, 1), lo, hi, timeCol)
  {
    var data: seq<Row> := [];
    var times: seq<string> := [];
    for i := 0 to |rows|
      invariant i >= 1 ==> ReadRows(rows[1..i], lo, hi, timeCol) == Ok(Samples(data, times))
      invariant i == 0 ==> data == [] && times == []
    {
      if i == 0 {
        // the header
      } else {
        if timeCol.Some? && timeCol.value >= |rows[i]| {
          UntimedRow(rows, i, lo, hi, timeCol);
          return Err("IndexError");
        }
        ReadOneMore(rows, i, lo, hi, timeCol);
        data := data + [Slice(rows[i], lo, hi)];
        times := times + TimeCell(rows[i], timeCol);
      }
    }
    AfterHeader(rows);
    return Ok(Samples(data, times));
  }

  /** A data row too short for the time column makes the whole load raise IndexError. */
  lemma UntimedRow(rows: seq<Row>, i: nat, lo: int, hi: int, timeCol: Option<nat>)
    requires 1 <= i < |rows| && timeCol.Some? && timeCol.value >= |rows[i]|
    ensures ReadRows(SliceFrom(rows, 1), lo, hi, timeCol) == Err("IndexError")
  {
    assert SliceFrom(rows, 1)[i - 1] == rows[i];
  }

  /** Reading one more data row appends its cells. */
  lemma ReadOneMore(rows: seq<Row>, i: nat, lo: int, hi: int, timeCol: Option<nat>)
    requires 1 <= i < |rows| && (timeCol.Some? ==> timeCol.value < |rows[i]|)
    ensures var before := ReadRows(rows[1..i], lo, hi, timeCol);
      before.Ok? ==>
        ReadRows(rows[1..i + 1], lo, hi, timeCol) ==
        Ok(Samples(before.value.data + [Slice(rows[i], lo, hi)], before.value.times + TimeCell(rows[i], timeCol)))
  {
    assert rows[1..i + 1] == rows[1..i] + [rows[i]];
    ReadRowsSnoc(rows[1..i], rows[i], lo, hi, timeCol);
  }

  lemma ReadRowsSnoc(rows: seq<Row>, last: Row, lo: int, hi: int, timeCol: Option<nat>)
    requires timeCol.Some? ==> timeCol.value < |last|
    ensures var before := ReadRows(rows, lo, hi, timeCol);
      before.Ok? ==>
        ReadRows(rows + [last], lo, hi, timeCol) ==
        Ok(Samples(before.value.data + [Slice(last, lo, hi)], before.value.times + TimeCell(last, timeCol)))
  {
    assert (rows + [last])[..|rows|] == rows;
  }

  /** The rows after the header. */
  lemma AfterHeader<T>(rows: seq<T>)
    ensures SliceFrom(rows, 1) == if |rows| == 0 then [] else rows[1..|rows|]
  {
  }

  // ---------------------------------------------------------------- load_all_trials

  /** `action_flag`: None before the first trigger, then 1 after a START and 0 after a STOP. */
  datatype Flag = Unset | On | Off

  /** The loop's variables: the flag, the open trial's buffers and the three output lists. */
  datatype TrialState = TrialState(flag: Flag, data: seq<Row>, times: seq<string>,
                                   trials: seq<seq<Row>>, trialTimes: seq<seq<string>>, numbers: seq<int>)

  const NoTrials: TrialState := TrialState(Unset, [], [], [], [], [])

  /** A row whose trigger cell is consulted: the row reaches the column and the cell is not empty. */
  predicate Marked(row: Row, trigCol: nat)
  {
    |row| > trigCol && row[trigCol] != ""
  }

  /** `int(triger[-2:])`, evaluated for every consulted trigger, START and STOP alike. */
  function TrialNumber(trigger: string): Result<int>
  {
    PyInt(SliceFrom(trigger, -2))
  }

  /** `triger[0:4]`. */
  function Action(trigger: string): string
  {
    Slice(trigger, 0, 4)
  }

  /** A STOP: the open trial's buffers become a trial numbered `n`, and the buffers empty. */
  function Closed(s: TrialState, n: int): TrialState
  {
    TrialState(Off, [], [], s.trials + [s.data], s.trialTimes + [s.times], s.numbers + [n])
  }

  /** What a row's trigger cell does: nothing when it is not consulted, else START opens and STOP closes. */
  function Triggered(s: TrialState, row: Row, trigCol: nat): Result<TrialState>
  {
    if !Marked(row, trigCol) then Ok(s)
    else
      var number := TrialNumber(row[trigCol]);
      if number.Err? then Err(number.error)
      else if Action(row[trigCol]) == "STAR" then Ok(s.(flag := On))
      else if Action(row[trigCol]) == "STOP" then Ok(Closed(s, number.value))
      else Ok(s)
  }

  /** While the flag is 1, the row's channel cells and time cell join the open trial. */
  function Buffered(s: TrialState, row: Row, lo: int, hi: int, timeCol: Option<nat>): Result<TrialState>
  {
    if s.flag != On then Ok(s)
    else if timeCol.Some? && timeCol.value >= |row| then Err("IndexError")
    else Ok(Appended(s, row, lo, hi, timeCol))
  }

  /** The row's channel cells and time cell appended to the open trial. */
  function Appended(s: TrialState, row: Row, lo: int, hi: int, timeCol: Option<nat>): TrialState
    requires timeCol.Some? ==> timeCol.value < |row|
  {
    s.(data := s.data + [Slice(row, lo, hi)], times := s.times + TimeCell(row, timeCol))
  }

  /** One data row of `load_all_trials`' loop: its trigger first, then the buffering. */
  function TrialStep(s: TrialState, row: Row, lo: int, hi: int, timeCol: Option<nat>, trigCol: nat): Result<TrialState>
  {
    var t := Triggered(s, row, trigCol);
    if t.Err? then t else Buffered(t.value, row, lo, hi, timeCol)
  }

  /** The loop over `rows`, from state `s`; the first error ends it. */
  function Trials(s: TrialState, rows: seq<Row>, lo: int, hi: int, timeCol: Option<nat>, trigCol: nat): Result<TrialState>
    decreases |rows|
  {
    if rows == [] then Ok(s)
    else
      var next := TrialStep(s, rows[0], lo, hi, timeCol, trigCol);
      if next.Err? then next else Trials(next.value, rows[1..], lo, hi, timeCol, trigCol)
  }

  datatype TrialSet = TrialSet(data: seq<seq<Row>>, times: seq<seq<string>>, numbers: seq<int>)

  /** `load_all_trials` on a whole file: the header is skipped, and an open trial at the end is dropped. */
  function LoadedTrials(rows: seq<Row>, lo: int, hi: int, timeCol: Option<nat>, trigCol: nat): Result<TrialSet>
  {
    var r := Trials(NoTrials, SliceFrom(rows, 1), lo, hi, timeCol, trigCol);
    if r.Err? then Err(r.error) else Ok(TrialSet(r.value.trials, r.value.trialTimes, r.value.numbers))
  }

  /** `load_all_trials`, as the loop the source runs. */
  method LoadAllTrials(rows: seq<Row>, lo: int, hi: int, timeCol: Option<nat>, trigCol: nat) returns (r: Result<TrialSet>)
    ensures r == LoadedTrials(rows, lo, hi, timeCol, trigCol)
  {
    var allTrialsData: seq<seq<Row>> := [];
    var allTrialsTimes: seq<seq<string>> := [];
    var trialNumbers: seq<int> := [];
    var actionFlag := Unset;
    var data: seq<Row> := [];
    var times: seq<string> := [];
    ghost var goal := Trials(NoTrials, SliceFrom(rows, 1), lo, hi, timeCol, trigCol);
    for i := 0 to |rows|
      invariant var s := TrialState(actionFlag, data, times, allTrialsData, allTrialsTimes, trialNumbers);
        if i == 0 then s == NoTrials else goal == Trials(s, rows[i..], lo, hi, timeCol, trigCol)
    {
      if i == 0 {
        if |rows| > 0 {
          assert SliceFrom(rows, 1) == rows[1..];
        }
        continue;
      }
      ghost var s := TrialState(actionFlag, data, times, allTrialsData, allTrialsTimes, trialNumbers);
      ghost var next := TrialStep(s, rows[i], lo, hi, timeCol, trigCol);
      assert rows[i..][0] == rows[i] && rows[i..][1..] == rows[i + 1..];
      if Marked(rows[i], trigCol) {
        var triger := rows[i][trigCol];
        var action := Action(triger);
        var trialNumber := TrialNumber(triger);
        if trialNumber.Err? {
          return Err(trialNumber.error);
        }
        if action == "STAR" {
          actionFlag := On;
        } else if action == "STOP" {
          actionFlag := Off;
          allTrialsData := allTrialsData + [data];
          allTrialsTimes := allTrialsTimes + [times];
          trialNumbers := trialNumbers + [trialNumber.value];
          data := [];
          times := [];
        }
      }
      if actionFlag == On {
        if timeCol.Some? && timeCol.value >= |rows[i]| {
          return Err("IndexError");
        }
        data := data + [Slice(rows[i], lo, hi)];
        times := times + TimeCell(rows[i], timeCol);
      }
      assert next == Ok(TrialState(actionFlag, data, times, allTrialsData, allTrialsTimes, trialNumbers));
    }
    if |rows| == 0 {
      assert SliceFrom(rows, 1) == [];
    }
    return Ok(TrialSet(allTrialsData, allTrialsTimes, trialNumbers));
  }

  // ---------------------------------------------------------------- what load_all_trials promises

  /**
   * The loop keeps the three output lists the same length, keeps a trial's
   * time list as long as its data, and holds no buffered rows unless a trial
   * is open.
   */
  predicate Consistent(s: TrialState, timed: bool)
  {
    |s.trials| == |s.trialTimes| == |s.numbers| &&
    (timed ==> |s.data| == |s.times| && forall k :: 0 <= k < |s.trials| ==> |s.trials[k]| == |s.trialTimes[k]|) &&
    (!timed ==> s.times == [] && forall k :: 0 <= k < |s.trials| ==> s.trialTimes[k] == []) &&
    (s.flag != On ==> s.data == [] && s.times == [])
  }

  lemma ClosedConsistent(s: TrialState, n: int, timed: bool)
    requires Consistent(s, timed)
    ensures Consistent(Closed(s, n), timed)
  {
    var c := Closed(s, n);
    assert forall k :: 0 <= k < |s.trials| ==> c.trials[k] == s.trials[k] && c.trialTimes[k] == s.trialTimes[k];
  }

  lemma TriggeredConsistent(s: TrialState, row: Row, trigCol: nat, timed: bool)
    requires Consistent(s, timed)
    ensures var t := Triggered(s, row, trigCol); t.Ok? ==> Consistent(t.value, timed)
  {
    if Marked(row, trigCol) {
      var number := TrialNumber(row[trigCol]);
      if number.Ok? && Action(row[trigCol]) != "STAR" && Action(row[trigCol]) == "STOP" {
        ClosedConsistent(s, number.value, timed);
      }
    }
  }

  lemma BufferedConsistent(s: TrialState, row: Row, lo: int, hi: int, timeCol: Option<nat>)
    requires Consistent(s, timeCol.Some?)
    ensures var b := Buffered(s, row, lo, hi, timeCol); b.Ok? ==> Consistent(b.value, timeCol.Some?)
  {
  }

  lemma StepConsistent(s: TrialState, row: Row, lo: int, hi: int, timeCol: Option<nat>, trigCol: nat)
    requires Consistent(s, timeCol.Some?)
    ensures var r := TrialStep(s, row, lo, hi, timeCol, trigCol); r.Ok? ==> Consistent(r.value, timeCol.Some?)
  {
    TriggeredConsistent(s, row, trigCol, timeCol.Some?);
    var t := Triggered(s, row, trigCol);
    if t.Ok? {
      BufferedConsistent(t.value, row, lo, hi, timeCol);
    }
  }

  lemma {:induction false} TrialsConsistent(s: TrialState, rows: seq<Row>, lo: int, hi: int, timeCol: Option<nat>, trigCol: nat)
    requires Consistent(s, timeCol.Some?)
    ensures var r := Trials(s, rows, lo, hi, timeCol, trigCol); r.Ok? ==> Consistent(r.value, timeCol.Some?)
    decreases |rows|
  {
    if rows != [] {
      StepConsistent(s, rows[0], lo, hi, timeCol, trigCol);
      var next := TrialStep(s, rows[0], lo, hi, timeCol, trigCol);
      if next.Ok? {
        TrialsConsistent(next.value, rows[1..], lo, hi, timeCol, trigCol);
      }
    }
  }

  /** The three lists `load_all_trials` returns have the same length, and each trial as many times as rows. */
  lemma LoadedTrialsAligned(rows: seq<Row>, lo: int, hi: int, timeCol: Option<nat>, trigCol: nat)
    ensures var r := LoadedTrials(rows, lo, hi, timeCol, trigCol);
      r.Ok? ==> |r.value.data| == |r.value.times| == |r.value.numbers| &&
                (timeCol.Some? ==> forall k :: 0 <= k < |r.value.data| ==> |r.value.data[k]| == |r.value.times[k]|)
  {
    TrialsConsistent(NoTrials, SliceFrom(rows, 1), lo, hi, timeCol, trigCol);
  }

  /** A consulted trigger whose last two characters are not an integer raises, whatever its action. */
  lemma BadTrialNumberRaises(s: TrialState, row: Row, lo: int, hi: int, timeCol: Option<nat>, trigCol: nat)
    requires Marked(row, trigCol) && TrialNumber(row[trigCol]).Err?
    ensures TrialStep(s, row, lo, hi, timeCol, trigCol) == Err("ValueError")
  {
  }

  /** Rows whose trigger cell is not consulted. */
  predicate Unmarked(rows: seq<Row>, trigCol: nat)
  {
    forall i :: 0 <= i < |rows| ==> !Marked(rows[i], trigCol)
  }

  /** Rows long enough to hold the time cell. */
  predicate Timed(rows: seq<Row>, timeCol: Option<nat>)
  {
    timeCol.Some? ==> forall i :: 0 <= i < |rows| ==> timeCol.value < |rows[i]|
  }

  /** The time cells of `rows`. */
  function TimeCells(rows: seq<Row>, timeCol: Option<nat>): (r: seq<string>)
    requires Timed(rows, timeCol)
    ensures timeCol.None? ==> r == []
    ensures timeCol.Some? ==> |r| == |rows|
  {
    if rows == [] then [] else TimeCells(rows[..|rows| - 1], timeCol) + TimeCell(rows[|rows| - 1], timeCol)
  }

  lemma {:induction false} TimeCellsCons(row: Row, rows: seq<Row>, timeCol: Option<nat>)
    requires Timed([row] + rows, timeCol)
    ensures Timed(rows, timeCol) && (timeCol.Some? ==> timeCol.value < |row|)
    ensures TimeCells([row] + rows, timeCol) == TimeCell(row, timeCol) + TimeCells(rows, timeCol)
  {
    var all := [row] + rows;
    assert all[0] == row;
    forall i | 0 <= i < |rows| ensures timeCol.Some? ==> timeCol.value < |rows[i]| {
      assert rows[i] == all[i + 1];
    }
    if rows != [] {
      assert all[..|all| - 1] == [row] + rows[..|rows| - 1];
      TimeCellsCons(row, rows[..|rows| - 1], timeCol);
    } else {
      assert all == [row];
    }
  }

  /** Unmarked rows change nothing unless a trial is open. */
  lemma {:induction false} IdleRowsIgnored(s: TrialState, rows: seq<Row>, lo: int, hi: int, timeCol: Option<nat>, trigCol: nat)
    requires s.flag != On && Unmarked(rows, trigCol)
    ensures Trials(s, rows, lo, hi, timeCol, trigCol) == Ok(s)
    decreases |rows|
  {
    if rows != [] {
      IdleRowsIgnored(s, rows[1..], lo, hi, timeCol, trigCol);
    }
  }

  /** The open trial's buffers with the channel cells and time cells of `rows` appended. */
  function Extended(s: TrialState, rows: seq<Row>, lo: int, hi: int, timeCol: Option<nat>): TrialState
    requires Timed(rows, timeCol)
  {
    s.(data := s.data + Columns(rows, lo, hi), times := s.times + TimeCells(rows, timeCol))
  }

  lemma ExtendedCons(s: TrialState, row: Row, rows: seq<Row>, lo: int, hi: int, timeCol: Option<nat>)
    requires Timed([row] + rows, timeCol)
    ensures Timed(rows, timeCol) && (timeCol.Some? ==> timeCol.value < |row|)
    ensures Extended(Appended(s, row, lo, hi, timeCol), rows, lo, hi, timeCol) == Extended(s, [row] + rows, lo, hi, timeCol)
  {
    TimeCellsCons(row, rows, timeCol);
    JoinedColumns(s.data, s.times, row, rows, lo, hi, timeCol);
  }

  lemma JoinedColumns(data: seq<Row>, times: seq<string>, row: Row, rows: seq<Row>, lo: int, hi: int, timeCol: Option<nat>)
    requires Timed([row] + rows, timeCol) && Timed(rows, timeCol) && (timeCol.Some? ==> timeCol.value < |row|)
    ensures data + [Slice(row, lo, hi)] + Columns(rows, lo, hi) == data + Columns([row] + rows, lo, hi)
    ensures times + TimeCell(row, timeCol) + TimeCells(rows, timeCol) == times + TimeCells([row] + rows, timeCol)
  {
    ColumnsCons(row, rows, lo, hi);
    TimeCellsCons(row, rows, timeCol);
  }

  /** Unmarked rows of an open trial are appended to its buffers, in order. */
  lemma {:induction false} OpenRowsBuffered(s: TrialState, rows: seq<Row>, lo: int, hi: int, timeCol: Option<nat>, trigCol: nat)
    requires s.flag == On && Unmarked(rows, trigCol) && Timed(rows, timeCol)
    ensures Trials(s, rows, lo, hi, timeCol, trigCol) == Ok(Extended(s, rows, lo, hi, timeCol))
    decreases |rows|
  {
    if rows == [] {
      assert Columns(rows, lo, hi) == [] && TimeCells(rows, timeCol) == [];
      assert s.data + [] == s.data && s.times + [] == s.times;
    } else {
      assert rows == [rows[0]] + rows[1..];
      ExtendedCons(s, rows[0], rows[1..], lo, hi, timeCol);
      var next := Appended(s, rows[0], lo, hi, timeCol);
      UnmarkedStep(s, rows[0], lo, hi, timeCol, trigCol);
      assert Unmarked(rows[1..], trigCol);
      OpenRowsBuffered(next, rows[1..], lo, hi, timeCol, trigCol);
    }
  }

  lemma UnmarkedStep(s: TrialState, row: Row, lo: int, hi: int, timeCol: Option<nat>, trigCol: nat)
    requires !Marked(row, trigCol)
    ensures TrialStep(s, row, lo, hi, timeCol, trigCol) == Buffered(s, row, lo, hi, timeCol)
  {
  }

  lemma StartStep(s: TrialState, row: Row, lo: int, hi: int, timeCol: Option<nat>, trigCol: nat)
    requires StartsTrial(row, trigCol)
    ensures TrialStep(s, row, lo, hi, timeCol, trigCol) == Buffered(s.(flag := On), row, lo, hi, timeCol)
  {
  }

  lemma StopStep(s: TrialState, row: Row, lo: int, hi: int, timeCol: Option<nat>, trigCol: nat)
    requires StopsTrial(row, trigCol)
    ensures TrialStep(s, row, lo, hi, timeCol, trigCol) == Ok(Closed(s, TrialNumber(row[trigCol]).value))
  {
    assert Triggered(s, row, trigCol) == Ok(Closed(s, TrialNumber(row[trigCol]).value));
  }

  lemma OneRow(s: TrialState, row: Row, lo: int, hi: int, timeCol: Option<nat>, trigCol: nat)
    ensures Trials(s, [row], lo, hi, timeCol, trigCol) == TrialStep(s, row, lo, hi, timeCol, trigCol)
  {
    assert [row][0] == row && [row][1..] == [];
  }

  /** The trials of a run of rows, one after the other. */
  lemma {:induction false} TrialsAppend(s: TrialState, a: seq<Row>, b: seq<Row>, lo: int, hi: int, timeCol: Option<nat>, trigCol: nat)
    ensures var r := Trials(s, a, lo, hi, timeCol, trigCol);
      Trials(s, a + b, lo, hi, timeCol, trigCol) == if r.Err? then r else Trials(r.value, b, lo, hi, timeCol, trigCol)
    decreases |a|
  {
    if a == [] {
      assert a + b == b;
    } else {
      assert (a + b)[0] == a[0] && (a + b)[1..] == a[1..] + b;
      var next := TrialStep(s, a[0], lo, hi, timeCol, trigCol);
      if next.Ok? {
        TrialsAppend(next.value, a[1..], b, lo, hi, timeCol, trigCol);
      }
    }
  }

  /** A START trigger with a readable trial number. */
  predicate StartsTrial(row: Row, trigCol: nat)
  {
    Marked(row, trigCol) && Action(row[trigCol]) == "STAR" && TrialNumber(row[trigCol]).Ok?
  }

  /** A STOP trigger with a readable trial number. */
  predicate StopsTrial(row: Row, trigCol: nat)
  {
    Marked(row, trigCol) && Action(row[trigCol]) == "STOP" && TrialNumber(row[trigCol]).Ok?
  }

  /**
   * One trial: from a state with no open trial, a START row, unmarked rows
   * and a STOP row add one trial holding the START row and the rows between,
   * but not the STOP row, numbered by the STOP trigger's last two characters.
   */
  lemma OneTrial(s: TrialState, start: Row, middle: seq<Row>, stop: Row, lo: int, hi: int, timeCol: Option<nat>, trigCol: nat)
    requires s.flag != On && s.data == [] && s.times == []
    requires StartsTrial(start, trigCol) && Unmarked(middle, trigCol) && StopsTrial(stop, trigCol)
    requires Timed([start] + middle, timeCol)
    ensures Trials(s, [start] + middle + [stop], lo, hi, timeCol, trigCol) ==
      Ok(TrialState(Off, [], [],
                    s.trials + [Columns([start] + middle, lo, hi)],
                    s.trialTimes + [TimeCells([start] + middle, timeCol)],
                    s.numbers + [TrialNumber(stop[trigCol]).value]))
  {
    var body := [start] + middle;
    OpenTrial(s, start, middle, lo, hi, timeCol, trigCol);
    var full := Extended(s.(flag := On), body, lo, hi, timeCol);
    TrialsAppend(s, body, [stop], lo, hi, timeCol, trigCol);
    assert Trials(s, body + [stop], lo, hi, timeCol, trigCol) == Trials(full, [stop], lo, hi, timeCol, trigCol);
    OneRow(full, stop, lo, hi, timeCol, trigCol);
    StopStep(full, stop, lo, hi, timeCol, trigCol);
    ExtendedEmpty(s.(flag := On), body, lo, hi, timeCol);
  }

  /** Extending a state that buffers nothing buffers exactly the given rows. */
  lemma ExtendedEmpty(s: TrialState, rows: seq<Row>, lo: int, hi: int, timeCol: Option<nat>)
    requires s.data == [] && s.times == [] && Timed(rows, timeCol)
    ensures Extended(s, rows, lo, hi, timeCol).data == Columns(rows, lo, hi)
    ensures Extended(s, rows, lo, hi, timeCol).times == TimeCells(rows, timeCol)
  {
    assert [] + Columns(rows, lo, hi) == Columns(rows, lo, hi);
    assert [] + TimeCells(rows, timeCol) == TimeCells(rows, timeCol);
  }

  /** A START row followed by unmarked rows leaves a trial open on all of them. */
  lemma OpenTrial(s: TrialState, start: Row, rest: seq<Row>, lo: int, hi: int, timeCol: Option<nat>, trigCol: nat)
    requires StartsTrial(start, trigCol) && Unmarked(rest, trigCol) && Timed([start] + rest, timeCol)
    ensures Trials(s, [start] + rest, lo, hi, timeCol, trigCol) == Ok(Extended(s.(flag := On), [start] + rest, lo, hi, timeCol))
  {
    ExtendedCons(s.(flag := On), start, rest, lo, hi, timeCol);
    var begun := Appended(s.(flag := On), start, lo, hi, timeCol);
    StartStep(s, start, lo, hi, timeCol, trigCol);
    OneRow(s, start, lo, hi, timeCol, trigCol);
    OpenRowsBuffered(begun, rest, lo, hi, timeCol, trigCol);
    TrialsAppend(s, [start], rest, lo, hi, timeCol, trigCol);
  }

  /** A START with no STOP after it opens a trial that is never returned. */
  lemma TrailingStartDropped(s: TrialState, start: Row, rest: seq<Row>, lo: int, hi: int, timeCol: Option<nat>, trigCol: nat)
    requires StartsTrial(start, trigCol) && Unmarked(rest, trigCol) && Timed([start] + rest, timeCol)
    ensures var r := Trials(s, [start] + rest, lo, hi, timeCol, trigCol);
      r.Ok? && r.value.trials == s.trials && r.value.trialTimes == s.trialTimes && r.value.numbers == s.numbers
  {
    OpenTrial(s, start, rest, lo, hi, timeCol, trigCol);
  }

  /**
   * A file holding, after its header, unmarked rows, a START row, unmarked
   * rows and a STOP row loads as exactly that one trial.
   */
  lemma LoadedOneTrial(header: Row, before: seq<Row>, start: Row, middle: seq<Row>, stop: Row,
                       lo: int, hi: int, timeCol: Option<nat>, trigCol: nat)
    requires Unmarked(before, trigCol) && StartsTrial(start, trigCol) && Unmarked(middle, trigCol) && StopsTrial(stop, trigCol)
    requires Timed([start] + middle, timeCol)
    ensures LoadedTrials([header] + before + [start] + middle + [stop], lo, hi, timeCol, trigCol) ==
      Ok(TrialSet([Columns([start] + middle, lo, hi)], [TimeCells([start] + middle, timeCol)], [TrialNumber(stop[trigCol]).value]))
  {
    HeaderSkipped(header, before, start, middle, stop);
    RecordingTrials(before, start, middle, stop, lo, hi, timeCol, trigCol);
    LoadedOf([header] + before + [start] + middle + [stop], lo, hi, timeCol, trigCol,
             TrialState(Off, [], [], [Columns([start] + middle, lo, hi)], [TimeCells([start] + middle, timeCol)],
                        [TrialNumber(stop[trigCol]).value]));
  }

  lemma RecordingTrials(before: seq<Row>, start: Row, middle: seq<Row>, stop: Row,
                        lo: int, hi: int, timeCol: Option<nat>, trigCol: nat)
    requires Unmarked(before, trigCol) && StartsTrial(start, trigCol) && Unmarked(middle, trigCol) && StopsTrial(stop, trigCol)
    requires Timed([start] + middle, timeCol)
    ensures Trials(NoTrials, before + ([start] + middle + [stop]), lo, hi, timeCol, trigCol) ==
      Ok(TrialState(Off, [], [], [Columns([start] + middle, lo, hi)], [TimeCells([start] + middle, timeCol)],
                    [TrialNumber(stop[trigCol]).value]))
  {
    IdleRowsBefore(before, [start] + middle + [stop], lo, hi, timeCol, trigCol);
    OneTrial(NoTrials, start, middle, stop, lo, hi, timeCol, trigCol);
    FirstTrial(Columns([start] + middle, lo, hi), TimeCells([start] + middle, timeCol), TrialNumber(stop[trigCol]).value);
  }

  lemma FirstTrial(c: seq<Row>, t: seq<string>, n: int)
    ensures TrialState(Off, [], [], NoTrials.trials + [c], NoTrials.trialTimes + [t], NoTrials.numbers + [n]) ==
            TrialState(Off, [], [], [c], [t], [n])
  {
    assert [] + [c] == [c] && [] + [t] == [t] && [] + [n] == [n];
  }

  lemma LoadedOf(rows: seq<Row>, lo: int, hi: int, timeCol: Option<nat>, trigCol: nat, s: TrialState)
    requires Trials(NoTrials, SliceFrom(rows, 1), lo, hi, timeCol, trigCol) == Ok(s)
    ensures LoadedTrials(rows, lo, hi, timeCol, trigCol) == Ok(TrialSet(s.trials, s.trialTimes, s.numbers))
  {
  }

  lemma HeaderSkipped(header: Row, before: seq<Row>, start: Row, middle: seq<Row>, stop: Row)
    ensures SliceFrom([header] + before + [start] + middle + [stop], 1) == before + ([start] + middle + [stop])
  {
    var rows := [header] + before + [start] + middle + [stop];
    assert rows == [header] + (before + ([start] + middle + [stop]));
  }

  lemma IdleRowsBefore(before: seq<Row>, rows: seq<Row>, lo: int, hi: int, timeCol: Option<nat>, trigCol: nat)
    requires Unmarked(before, trigCol)
    ensures Trials(NoTrials, before + rows, lo, hi, timeCol, trigCol) == Trials(NoTrials, rows, lo, hi, timeCol, trigCol)
  {
    IdleRowsIgnored(NoTrials, before, lo, hi, timeCol, trigCol);
    TrialsAppend(NoTrials, before, rows, lo, hi, timeCol, trigCol);
  }

  // ---------------------------------------------------------------- output files

  /** One file a preprocessing function writes: its path and its rows. */
  datatype Output = Output(path: string, data: seq<Row>)

  /**
   * The rows `pd.DataFrame(data, columns=channels).to_csv(path, index=False)`
   * writes: the column names first, then the data.
   */
  function CsvRows(channels: seq<string>, data: seq<Row>): seq<Row>
  {
    [channels] + data
  }

  /**
   * `str_to_times`: each time cell through `clock`, which stands for the three
   * `strptime` formats tried in turn and gives the time in microseconds or the
   * error `strptime` raises.
   */
  function ToTimes(cells: seq<string>, clock: string -> Result<int>): (r: Result<seq<int>>)
    ensures r.Ok? <==> forall i :: 0 <= i < |cells| ==> clock(cells[i]).Ok?
    ensures r.Ok? ==> |r.value| == |cells| && forall i :: 0 <= i < |cells| ==> r.value[i] == clock(cells[i]).value
  {
    if cells == [] then Ok([])
    else
      var rest := ToTimes(cells[1..], clock);
      var first := clock(cells[0]);
      if first.Err? then Err(first.error)
      else if rest.Err? then rest
      else
        assert forall i :: 1 <= i < |cells| ==> cells[i] == cells[1..][i - 1];
        Ok([first.value] + rest.value)
  }

  /** The converted times of every trial, or the first conversion error. */
  function TrialTimes(cells: seq<seq<string>>, clock: string -> Result<int>): (r: Result<seq<seq<int>>>)
    ensures r.Ok? ==> |r.value| == |cells| && forall i :: 0 <= i < |cells| ==> ToTimes(cells[i], clock) == Ok(r.value[i])
  {
    if cells == [] then Ok([])
    else
      var first := ToTimes(cells[0], clock);
      var rest := TrialTimes(cells[1..], clock);
      if first.Err? then Err(first.error)
      else if rest.Err? then rest
      else
        assert forall i :: 1 <= i < |cells| ==> cells[i] == cells[1..][i - 1];
        Ok([first.value] + rest.value)
  }

  /** The files of the first n trials, written in trial order; the first failure ends the loop. */
  function EachTrial(n: nat, files: nat -> Result<seq<Output>>): Result<seq<Output>>
  {
    if n == 0 then Ok([])
    else
      var before := EachTrial(n - 1, files);
      if before.Err? then before
      else
        var last := files(n - 1);
        if last.Err? then last else Ok(before.value + last.value)
  }

  /** The trial loop of the preprocessing functions: the files of each trial in turn, with a counter. */
  method WriteEachTrial(n: nat, files: nat -> Result<seq<Output>>) returns (r: Result<seq<Output>>)
    ensures r == EachTrial(n, files)
  {
    var written: seq<Output> := [];
    var i := 0;
    while i < n
      invariant i <= n
      invariant EachTrial(i, files) == Ok(written)
    {
      var trialFiles := files(i);
      if trialFiles.Err? {
        EachTrialStops(i, n, files);
        return trialFiles;
      }
      written := written + trialFiles.value;
      i := i + 1;
    }
    return Ok(written);
  }

  /** A failing trial ends the loop: no later trial's files are written. */
  lemma {:induction false} EachTrialStops(i: nat, n: nat, files: nat -> Result<seq<Output>>)
    requires i < n && EachTrial(i, files).Ok? && files(i).Err?
    ensures EachTrial(n, files) == files(i)
    decreases n
  {
    if n > i + 1 {
      EachTrialStops(i, n - 1, files);
    }
  }

  /** When every trial writes one file, the loop writes file i for trial i and nothing else. */
  lemma {:induction false} EachTrialSingles(n: nat, files: nat -> Result<seq<Output>>)
    requires forall i :: 0 <= i < n && files(i).Ok? ==> |files(i).value| == 1
    ensures EachTrial(n, files).Ok? <==> forall i :: 0 <= i < n ==> files(i).Ok?
    ensures EachTrial(n, files).Ok? ==>
      |EachTrial(n, files).value| == n && forall i :: 0 <= i < n ==> EachTrial(n, files).value[i] == files(i).value[0]
  {
    if n > 0 {
      EachTrialSingles(n - 1, files);
    }
  }

  /** When every trial writes two files, the loop writes them at 2i and 2i + 1 for trial i. */
  lemma {:induction false} EachTrialPairs(n: nat, files: nat -> Result<seq<Output>>)
    requires forall i :: 0 <= i < n && files(i).Ok? ==> |files(i).value| == 2
    ensures EachTrial(n, files).Ok? <==> forall i :: 0 <= i < n ==> files(i).Ok?
    ensures EachTrial(n, files).Ok? ==>
      |EachTrial(n, files).value| == 2 * n &&
      forall i :: 0 <= i < n ==> EachTrial(n, files).value[2 * i] == files(i).value[0] &&
                                 EachTrial(n, files).value[2 * i + 1] == files(i).value[1]
  {
    if n > 0 {
      EachTrialPairs(n - 1, files);
    }
  }

  /** `"{out}/{file[:-4]}-{str(trial).zfill(2)}.csv"`: the file of one trial. */
  function TrialFile(outputPath: string, fileName: string, trial: int): string
  {
    outputPath + "/" + SliceTo(fileName, -4) + "-" + ZFill(IntToString(trial), 2) + ".csv"
  }

  /** The two characters before ".csv" read back as the trial number, for trials 0 to 99. */
  lemma TrialFileNumber(outputPath: string, fileName: string, trial: nat)
    requires trial < 100
    ensures var f := TrialFile(outputPath, fileName, trial);
      |f| >= 6 && PyInt(f[|f| - 6..|f| - 4]) == Ok(trial)
  {
    var z := ZFill(IntToString(trial), 2);
    var f := TrialFile(outputPath, fileName, trial);
    TwoDigits(trial);
    assert f == (outputPath + "/" + SliceTo(fileName, -4) + "-") + z + ".csv";
    assert f[|f| - 6..|f| - 4] == z;
    ZFill2OfNat(trial);
  }

  /** Different trial numbers, 0 or more, give different files: each trial gets a file of its own. */
  lemma TrialFilesDistinct(outputPath: string, fileName: string, a: nat, b: nat)
    requires a != b
    ensures TrialFile(outputPath, fileName, a) != TrialFile(outputPath, fileName, b)
  {
    var p := outputPath + "/" + SliceTo(fileName, -4) + "-";
    var za, zb := ZFill(IntToString(a), 2), ZFill(IntToString(b), 2);
    assert TrialFile(outputPath, fileName, a) == p + za + ".csv";
    assert TrialFile(outputPath, fileName, b) == p + zb + ".csv";
    ZFill2OfNat(a);
    ZFill2OfNat(b);
    MiddleDiffers(p, za, zb, ".csv");
  }

  lemma MiddleDiffers<T>(p: seq<T>, x: seq<T>, y: seq<T>, q: seq<T>)
    requires x != y
    ensures p + x + q != p + y + q
  {
    assert (p + x + q)[|p|..|p| + |x|] == x;
    assert (p + y + q)[|p|..|p| + |y|] == y;
    if |x| != |y| {
      assert |p + x + q| != |p + y + q|;
    }
  }

  // ---------------------------------------------------------------- resample

  /** datetime.timedelta(0, 1, 0), in microseconds. */
  const Second: int := 1_000_000

  /**
   * The padding loop: while the block is shorter than the rate, append its
   * last (rate - length) items, or all of it when it is shorter than that.
   */
  function Pad<T>(block: seq<T>, rate: int): (r: seq<T>)
    requires block != []
    ensures |block| < rate ==> |r| == rate
    ensures |block| >= rate ==> r == block
    ensures |r| >= |block| && r[..|block|] == block
    ensures r[|r| - 1] == block[|block| - 1]
    ensures forall x :: x in r ==> x in block
    decreases if |block| < rate then rate - |block| else 0
  {
    if |block| >= rate then block
    else
      var longer := block + SliceFrom(block, -(rate - |block|));
      PadStep(block, rate);
      var r := Pad(longer, rate);
      assert r[..|block|] == r[..|longer|][..|block|];
      r
  }

  /** One pass of the padding loop lengthens the block, up to the rate, with copies of its own last items. */
  lemma PadStep<T>(block: seq<T>, rate: int)
    requires block != [] && |block| < rate
    ensures var longer := block + SliceFrom(block, -(rate - |block|));
      |block| < |longer| <= rate && longer[..|block|] == block && longer[|longer| - 1] == block[|block| - 1] &&
      forall x :: x in longer ==> x in block
  {
    LastItems(block, rate - |block|);
    var longer := block + SliceFrom(block, -(rate - |block|));
    assert longer[..|block|] == block;
  }

  /** A block closed at a one-second boundary: padded when short, cut to the rate when long. */
  function Fit<T>(block: seq<T>, rate: int): (r: seq<T>)
    requires block != []
    ensures rate >= 1 ==> |r| == rate
    ensures rate >= 1 && |block| >= rate ==> r == block[..rate]
    ensures rate >= 1 && |block| <= rate ==> r[..|block|] == block
    ensures forall x :: x in r ==> x in block
  {
    if |block| < rate then Pad(block, rate)
    else if |block| > rate then SliceTo(block, rate)
    else block
  }

  /** The loop's variables: the number of closed blocks, the window's start, the open block and the output. */
  datatype Window<T> = Window(number: nat, start: int, block: seq<T>, out: seq<T>)

  /** One item of `resample`'s loop, with its time; `origin` is the first time. */
  function Feed<T>(w: Window<T>, item: T, time: int, origin: int, rate: int): Window<T>
    requires w.block != [] || time - w.start <= Second
  {
    if time - w.start > Second then
      Window(w.number + 1, origin + (w.number + 1) * Second, [item], w.out + Fit(w.block, rate))
    else w.(block := w.block + [item])
  }

  /** The loop's variables after the first n items. */
  function Windows<T>(data: seq<T>, times: seq<int>, rate: int, n: nat): (w: Window<T>)
    requires n <= |data| && n <= |times| && |times| > 0
    ensures n > 0 ==> w.block != []
    ensures w.start == times[0] + w.number * Second
  {
    if n == 0 then Window(0, times[0], [], [])
    else Feed(Windows(data, times, rate, n - 1), data[n - 1], times[n - 1], times[0], rate)
  }

  /** The last block is kept only when it holds more than half a second's worth of items. */
  predicate KeepsLast<T>(w: Window<T>, rate: int)
  {
    |w.block| > 0 && 2 * |w.block| > rate
  }

  /** `resample` as written: the kept last block is padded but never cut. */
  function ResampledAsWritten<T>(data: seq<T>, times: seq<int>, rate: int): Result<seq<T>>
  {
    if |times| == 0 || |times| < |data| then Err("IndexError")
    else
      var w := Windows(data, times, rate, |data|);
      Ok(if KeepsLast(w, rate) then w.out + Pad(w.block, rate) else w.out)
  }

  /** `resample` with the last block fitted like every other block. */
  function Resampled<T>(data: seq<T>, times: seq<int>, rate: int): Result<seq<T>>
  {
    if |times| == 0 || |times| < |data| then Err("IndexError")
    else
      var w := Windows(data, times, rate, |data|);
      Ok(if KeepsLast(w, rate) then w.out + Fit(w.block, rate) else w.out)
  }

  lemma ResampledOfLast<T>(data: seq<T>, times: seq<int>, rate: int)
    requires 0 < |times| && |data| <= |times|
    ensures var w := Windows(data, times, rate, |data|);
      Resampled(data, times, rate) == Ok(if KeepsLast(w, rate) then w.out + Fit(w.block, rate) else w.out)
  {
  }

  /** The padding loop, in place on the block. */
  method PadBlock<T>(block: seq<T>, rate: int) returns (padded: seq<T>)
    requires block != []
    ensures padded == Pad(block, rate)
  {
    padded := block;
    while |padded| < rate
      invariant padded != [] && Pad(padded, rate) == Pad(block, rate)
      decreases rate - |padded|
    {
      LastItems(padded, rate - |padded|);
      padded := padded + SliceFrom(padded, -(rate - |padded|));
    }
  }

  /** The padding or cutting of a block closed at a one-second boundary. */
  method FitBlock<T>(block: seq<T>, rate: int) returns (fitted: seq<T>)
    requires block != []
    ensures fitted == Fit(block, rate)
  {
    fitted := block;
    if |block| < rate {
      fitted := PadBlock(block, rate);
    } else if |block| > rate {
      fitted := SliceTo(block, rate);
    }
  }

  /** One pass of `resample`'s loop body: close the block at a one-second boundary, then buffer the item. */
  method FeedItem<T>(blockNumber: nat, sampleStartTime: int, block: seq<T>, allData: seq<T>,
                     item: T, time: int, startTime: int, rate: int)
    returns (blockNumber': nat, sampleStartTime': int, block': seq<T>, allData': seq<T>)
    requires block != [] || time - sampleStartTime <= Second
    ensures Window(blockNumber', sampleStartTime', block', allData') ==
      Feed(Window(blockNumber, sampleStartTime, block, allData), item, time, startTime, rate)
  {
    blockNumber', sampleStartTime', block', allData' := blockNumber, sampleStartTime, block, allData;
    if time - sampleStartTime > Second {
      blockNumber' := blockNumber + 1;
      var fitted := FitBlock(block, rate);
      allData' := allData + fitted;
      block' := [];
      sampleStartTime' := startTime + blockNumber' * Second;
    }
    block' := block' + [item];
  }

  /** `resample`, as the loop the source runs, with the last block cut like the others. */
  method Resample<T>(data: seq<T>, times: seq<int>, rate: int) returns (r: Result<seq<T>>)
    ensures r == Resampled(data, times, rate)
  {
    if |times| == 0 {
      return Err("IndexError");
    }
    var startTime := times[0];
    var sampleStartTime := startTime;
    var block: seq<T> := [];
    var allData: seq<T> := [];
    var blockNumber: nat := 0;
    for i := 0 to |data|
      invariant Resampling(data, times, rate, i, Window(blockNumber, sampleStartTime, block, allData))
    {
      if i >= |times| {
        return Err("IndexError");
      }
      WindowsNext(data, times, rate, i);
      blockNumber, sampleStartTime, block, allData :=
        FeedItem(blockNumber, sampleStartTime, block, allData, data[i], times[i], startTime, rate);
    }
    ResampledOfLast(data, times, rate);
    allData := CloseLast(blockNumber, sampleStartTime, block, allData, rate);
    return Ok(allData);
  }

  /** The loop's variables after the first i items, with the times reaching that far. */
  ghost predicate Resampling<T>(data: seq<T>, times: seq<int>, rate: int, i: nat, w: Window<T>)
  {
    0 < |times| && i <= |data| && i <= |times| && Windows(data, times, rate, i) == w
  }

  lemma WindowsNext<T>(data: seq<T>, times: seq<int>, rate: int, i: nat)
    requires i < |data| && i < |times|
    ensures var w := Windows(data, times, rate, i);
      (w.block != [] || times[i] - w.start <= Second) && w.start == times[0] + w.number * Second &&
      Windows(data, times, rate, i + 1) == Feed(w, data[i], times[i], times[0], rate)
  {
  }

  /** After the loop: the last block is fitted and added only when it holds more than half a second. */
  method CloseLast<T>(blockNumber: nat, sampleStartTime: int, block: seq<T>, allData: seq<T>, rate: int)
    returns (out: seq<T>)
    ensures var w := Window(blockNumber, sampleStartTime, block, allData);
      out == if KeepsLast(w, rate) then allData + Fit(block, rate) else allData
  {
    out := allData;
    if |block| > 0 {
      if 2 * |block| > rate {
        var fitted := FitBlock(block, rate);
        out := allData + fitted;
      }
    }
  }

  // ---------------------------------------------------------------- what resample promises

  /** Every closed block adds exactly `rate` items. */
  lemma {:induction false} WindowsCount<T>(data: seq<T>, times: seq<int>, rate: int, n: nat)
    requires n <= |data| && n <= |times| && |times| > 0 && rate >= 1
    ensures |Windows(data, times, rate, n).out| == rate * Windows(data, times, rate, n).number
  {
    if n > 0 {
      WindowsCount(data, times, rate, n - 1);
      var w := Windows(data, times, rate, n - 1);
      var w2 := Windows(data, times, rate, n);
      if times[n - 1] - w.start > Second {
        assert w2.out == w.out + Fit(w.block, rate) && w2.number == w.number + 1;
        assert |w2.out| == rate * w.number + rate;
        MulSucc(rate, w.number);
      } else {
        assert w2.out == w.out && w2.number == w.number;
      }
    }
  }

  lemma MulSucc(a: int, b: int)
    ensures a * (b + 1) == a * b + a
  {
  }

  /** The output holds a whole number of seconds: its length is a multiple of the rate. */
  lemma ResampledWholeSeconds<T>(data: seq<T>, times: seq<int>, rate: int)
    requires rate >= 1
    ensures var r := Resampled(data, times, rate);
      r.Ok? ==> exists seconds: nat :: |r.value| == rate * seconds
  {
    if Resampled(data, times, rate).Ok? {
      WindowsCount(data, times, rate, |data|);
      var w := Windows(data, times, rate, |data|);
      if KeepsLast(w, rate) {
        assert Resampled(data, times, rate).value == w.out + Fit(w.block, rate);
        MulSucc(rate, w.number);
        assert |w.out + Fit(w.block, rate)| == rate * (w.number + 1);
      } else {
        assert Resampled(data, times, rate).value == w.out;
      }
    }
  }

  /** Every item the loop holds is one of the items read so far. */
  lemma {:induction false} WindowsItems<T>(data: seq<T>, times: seq<int>, rate: int, n: nat)
    requires n <= |data| && n <= |times| && |times| > 0
    ensures var w := Windows(data, times, rate, n);
      (forall x :: x in w.out ==> x in data[..n]) && (forall x :: x in w.block ==> x in data[..n])
  {
    if n > 0 {
      WindowsItems(data, times, rate, n - 1);
      assert data[..n] == data[..n - 1] + [data[n - 1]];
    }
  }

  /** Resampling only repeats or drops items: every output item is an input item. */
  lemma ResampledItems<T>(data: seq<T>, times: seq<int>, rate: int)
    ensures var r := Resampled(data, times, rate);
      r.Ok? ==> forall x :: x in r.value ==> x in data
  {
    if Resampled(data, times, rate).Ok? {
      WindowsItems(data, times, rate, |data|);
      assert data[..|data|] == data;
    }
  }

  /** Items within the first second stay in one block, in order. */
  lemma {:induction false} FirstSecond<T>(data: seq<T>, times: seq<int>, rate: int, n: nat)
    requires n <= |data| && n <= |times| && |times| > 0
    requires forall i :: 0 <= i < n ==> times[i] - times[0] <= Second
    ensures Windows(data, times, rate, n) == Window(0, times[0], data[..n], [])
  {
    if n > 0 {
      FirstSecond(data, times, rate, n - 1);
      assert data[..n] == data[..n - 1] + [data[n - 1]];
    }
  }

  /**
   * Data spanning at most one second gives one block of exactly `rate`
   * items when it holds more than half of that, and nothing otherwise.
   */
  lemma OneSecondOfData<T>(data: seq<T>, times: seq<int>, rate: int)
    requires |data| <= |times| && |times| > 0 && rate >= 1
    requires forall i :: 0 <= i < |data| ==> times[i] - times[0] <= Second
    ensures data != [] && 2 * |data| > rate ==> Resampled(data, times, rate) == Ok(Fit(data, rate))
    ensures data == [] || 2 * |data| <= rate ==> Resampled(data, times, rate) == Ok([])
  {
    FirstSecond(data, times, rate, |data|);
    assert data[..|data|] == data;
    if data != [] && 2 * |data| > rate {
      assert [] + Fit(data, rate) == Fit(data, rate);
    }
  }

  /** With no time stamps `times[0]` raises, even for no data. */
  lemma NoTimesRaises<T>(data: seq<T>, rate: int)
    ensures Resampled(data, [], rate) == Err("IndexError")
  {
  }

  /**
   * As written the kept last block is not cut: more than `rate` items within
   * one second come out whole (three items at a rate of two give three, not a
   * multiple of two), where cutting them gives exactly `rate` items.
   */
  lemma LastBlockNotCut<T>(data: seq<T>, times: seq<int>, rate: int)
    requires rate >= 1 && |data| > rate && |data| <= |times|
    requires forall i :: 0 <= i < |data| ==> times[i] - times[0] <= Second
    ensures ResampledAsWritten(data, times, rate) == Ok(data)
    ensures Resampled(data, times, rate) == Ok(data[..rate])
  {
    OneSecondOfData(data, times, rate);
    OneSecondAsWritten(data, times, rate);
  }

  lemma OneSecondAsWritten<T>(data: seq<T>, times: seq<int>, rate: int)
    requires |data| <= |times| && |times| > 0
    requires forall i :: 0 <= i < |data| ==> times[i] - times[0] <= Second
    ensures data != [] && 2 * |data| > rate ==> ResampledAsWritten(data, times, rate) == Ok(Pad(data, rate))
  {
    FirstSecond(data, times, rate, |data|);
    assert data[..|data|] == data;
    if data != [] && 2 * |data| > rate {
      assert [] + Pad(data, rate) == Pad(data, rate);
    }
  }

  /** The two agree whenever the last second holds no more than `rate` items. */
  lemma AsWrittenAgrees<T>(data: seq<T>, times: seq<int>, rate: int)
    requires |times| > 0 && |data| <= |times|
    requires |Windows(data, times, rate, |data|).block| <= rate
    ensures ResampledAsWritten(data, times, rate) == Resampled(data, times, rate)
  {
  }
}
