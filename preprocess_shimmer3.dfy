/**
 * `shimmer3_preprocess` (octopus_sensing/preprocessing/shimmer3.py): the GSR
 * and PPG columns, the two output files of the whole recording or of each
 * trial, and the check of the saving mode. The heartpy and scipy filters of
 * `clean_gsr` and `clean_ppg` are floating point and are not modelled: each
 * output holds its resampled column, as with `signal_preprocess=False`. The
 * output directories are created when missing; directories are not modelled.
 */
module Shimmer3Preprocess {
  import opened Common
  import opened PreprocessUtils
  import Recording
  import Shimmer3

  /** GSR and PPG are columns 5 and 6, the time is column 7 and the trigger column 8. */
  const ChannelsFrom: nat := 5
  const ChannelsTo: nat := 7
  const TimeColumn: nat := 7
  const TriggerColumn: nat := 8

  /** The columns read are the ones the Shimmer3 recorder's header names. */
  lemma LayoutMatchesHeader()
    ensures Shimmer3.Header[ChannelsFrom..ChannelsTo] == ["GSR_ohm", "PPG_mv"]
    ensures Shimmer3.Header[TimeColumn] == "time" && Shimmer3.Header[TriggerColumn] == "trigger"
  {
  }

  /** `"{0}/{signal}{1}".format(os.path.join(output_path, signal), stem)`. */
  function SignalFile(outputPath: string, signal: string, stem: string): string
  {
    PathJoin(outputPath, signal) + "/" + signal + stem
  }

  /** Separated mode drops the first seven characters of the file name ("shimmer"). */
  function SeparatedStem(fileName: string): string
  {
    SliceFrom(fileName, 7)
  }

  /** Continuous mode also drops the last four (".csv") and adds the trial number. */
  function TrialStem(fileName: string, trial: int): string
  {
    Slice(fileName, 7, -4) + "-" + ZFill(IntToString(trial), 2) + ".csv"
  }

  /** Column k of the resampled rows, `resampled_data[:, k]`. */
  function Signal(data: seq<Row>, k: nat): seq<Row>
  {
    Columns(data, k, k + 1)
  }

  /** The GSR file, then the PPG file, made from the same resampled rows. */
  function SignalFiles(outputPath: string, stem: string, data: seq<Row>): seq<Output>
  {
    [Output(SignalFile(outputPath, "gsr", stem), Signal(data, 0)), Output(SignalFile(outputPath, "ppg", stem), Signal(data, 1))]
  }

  /**
   * Separated mode. An empty resample is the one-dimensional `np.array([])`,
   * and taking its column `resampled_data[:, 0]` raises IndexError.
   */
  function SeparatedFiles(rows: seq<Row>, fileName: string, outputPath: string, rate: int,
                          clock: string -> Result<int>): Result<seq<Output>>
  {
    var samples := ReadRows(SliceFrom(rows, 1), ChannelsFrom, ChannelsTo, Some(TimeColumn));
    if samples.Err? then Err(samples.error)
    else
      var times := ToTimes(samples.value.times, clock);
      if times.Err? then Err(times.error)
      else
        var data := Resampled(samples.value.data, times.value, rate);
        if data.Err? then Err(data.error)
        else if data.value == [] then Err("IndexError")
        else Ok(SignalFiles(outputPath, SeparatedStem(fileName), data.value))
  }

  /** The two files of trial i. */
  function TrialOutput(trials: TrialSet, times: seq<seq<int>>, fileName: string, outputPath: string, rate: int, i: nat)
    : Result<seq<Output>>
  {
    if i >= |trials.data| || i >= |trials.numbers| || i >= |times| then Err("IndexError")
    else
      var data := Resampled(trials.data[i], times[i], rate);
      if data.Err? then Err(data.error)
      else if data.value == [] then Err("IndexError")
      else Ok(SignalFiles(outputPath, TrialStem(fileName, trials.numbers[i]), data.value))
  }

  function TrialOutputs(trials: TrialSet, times: seq<seq<int>>, fileName: string, outputPath: string, rate: int)
    : nat -> Result<seq<Output>>
  {
    (i: nat) => TrialOutput(trials, times, fileName, outputPath, rate, i)
  }

  /** `shimmer3_preprocess` on the rows of the input file: the files it writes, or the exception it raises. */
  function Preprocessed(rows: seq<Row>, fileName: string, outputPath: string, mode: int, rate: int,
                        clock: string -> Result<int>): Result<seq<Output>>
  {
    if mode == Recording.SEPARATED then SeparatedFiles(rows, fileName, outputPath, rate, clock)
    else if mode == Recording.CONTINUOUS then
      var trials := LoadedTrials(rows, ChannelsFrom, ChannelsTo, Some(TimeColumn), TriggerColumn);
      if trials.Err? then Err(trials.error)
      else
        var times := TrialTimes(trials.value.times, clock);
        if times.Err? then Err(times.error)
        else EachTrial(|trials.value.data|, TrialOutputs(trials.value, times.value, fileName, outputPath, rate))
    else Err("Exception")
  }

  /** `shimmer3_preprocess`, with the trial loop and its counter as the source writes them. */
  method Preprocess(rows: seq<Row>, fileName: string, outputPath: string, mode: int, rate: int,
                    clock: string -> Result<int>) returns (r: Result<seq<Output>>)
    ensures r == Preprocessed(rows, fileName, outputPath, mode, rate, clock)
  {
    if mode == Recording.SEPARATED {
      r := SeparatedFiles(rows, fileName, outputPath, rate, clock);
    } else if mode == Recording.CONTINUOUS {
      var trials := LoadAllTrials(rows, ChannelsFrom, ChannelsTo, Some(TimeColumn), TriggerColumn);
      if trials.Err? {
        return Err(trials.error);
      }
      var times := TrialTimes(trials.value.times, clock);
      if times.Err? {
        return Err(times.error);
      }
      r := WriteEachTrial(|trials.value.data|, TrialOutputs(trials.value, times.value, fileName, outputPath, rate));
    } else {
      r := Err("Exception");
    }
  }

  // ---------------------------------------------------------------- what shimmer3_preprocess promises

  /** A saving mode other than separated (1) or continuous (0) raises. */
  lemma UnknownModeRaises(rows: seq<Row>, fileName: string, outputPath: string, mode: int, rate: int,
                          clock: string -> Result<int>)
    requires mode != Recording.SEPARATED && mode != Recording.CONTINUOUS
    ensures Preprocessed(rows, fileName, outputPath, mode, rate, clock) == Err("Exception")
  {
  }

  /** The prefix `os.path.join` puts before its last component depends only on the directory. */
  lemma PathJoinSplit(a: string, b: string)
    ensures PathJoin(a, b) == (if a == [] then [] else if a[|a| - 1] == '/' then a else a + "/") + b
  {
  }

  /** The GSR file and the PPG file never share a path, whatever their stems. */
  lemma GsrPpgDiffer(outputPath: string, gsrStem: string, ppgStem: string)
    ensures SignalFile(outputPath, "gsr", gsrStem) != SignalFile(outputPath, "ppg", ppgStem)
  {
    PathJoinSplit(outputPath, "gsr");
    PathJoinSplit(outputPath, "ppg");
    var p := if outputPath == [] then [] else if outputPath[|outputPath| - 1] == '/' then outputPath else outputPath + "/";
    assert SignalFile(outputPath, "gsr", gsrStem) == p + ("gsr/gsr" + gsrStem);
    assert SignalFile(outputPath, "ppg", ppgStem) == p + ("ppg/ppg" + ppgStem);
    assert (p + ("gsr/gsr" + gsrStem))[|p|] == 'g';
    assert (p + ("ppg/ppg" + ppgStem))[|p|] == 'p';
  }

  /**
   * Separated mode writes exactly a GSR file and a PPG file, named after the
   * input file, each holding at least one whole second of samples.
   */
  lemma SeparatedPair(rows: seq<Row>, fileName: string, outputPath: string, rate: int, clock: string -> Result<int>)
    requires rate >= 1
    ensures var r := Preprocessed(rows, fileName, outputPath, Recording.SEPARATED, rate, clock);
      r.Ok? ==> |r.value| == 2 &&
                r.value[0].path == SignalFile(outputPath, "gsr", SliceFrom(fileName, 7)) &&
                r.value[1].path == SignalFile(outputPath, "ppg", SliceFrom(fileName, 7)) &&
                r.value[0].path != r.value[1].path &&
                exists seconds: nat :: seconds >= 1 && |r.value[0].data| == |r.value[1].data| == rate * seconds
  {
    GsrPpgDiffer(outputPath, SliceFrom(fileName, 7), SliceFrom(fileName, 7));
    SeparatedFilesHold(rows, fileName, outputPath, rate, clock);
  }

  /** The two files of a separated recording that does not raise. */
  lemma SeparatedFilesHold(rows: seq<Row>, fileName: string, outputPath: string, rate: int, clock: string -> Result<int>)
    requires rate >= 1
    ensures var r := SeparatedFiles(rows, fileName, outputPath, rate, clock);
      r.Ok? ==>
        |r.value| == 2 &&
        r.value[0].path == SignalFile(outputPath, "gsr", SliceFrom(fileName, 7)) &&
        r.value[1].path == SignalFile(outputPath, "ppg", SliceFrom(fileName, 7)) &&
        exists seconds: nat :: seconds >= 1 && |r.value[0].data| == |r.value[1].data| == rate * seconds
  {
    var r := SeparatedFiles(rows, fileName, outputPath, rate, clock);
    if r.Ok? {
      var samples := ReadRows(SliceFrom(rows, 1), ChannelsFrom, ChannelsTo, Some(TimeColumn)).value;
      var times := ToTimes(samples.times, clock).value;
      ResampledWholeSeconds(samples.data, times, rate);
      var data := Resampled(samples.data, times, rate).value;
      var seconds: nat :| |data| == rate * seconds;
      assert r.value == SignalFiles(outputPath, SeparatedStem(fileName), data);
      assert seconds >= 1;
    }
  }

  /**
   * A separated recording whose samples all lie within its first second and
   * number at most half the rate resamples to nothing, and taking its GSR
   * column raises IndexError: no file is written.
   */
  lemma ShortRecordingRaises(rows: seq<Row>, fileName: string, outputPath: string, rate: int, clock: string -> Result<int>)
    requires rate >= 1
    requires var samples := ReadRows(SliceFrom(rows, 1), ChannelsFrom, ChannelsTo, Some(TimeColumn));
      samples.Ok? && samples.value.data != [] && 2 * |samples.value.data| <= rate &&
      var times := ToTimes(samples.value.times, clock);
      times.Ok? && forall i :: 0 <= i < |times.value| ==> times.value[i] - times.value[0] <= Second
    ensures Preprocessed(rows, fileName, outputPath, Recording.SEPARATED, rate, clock) == Err("IndexError")
  {
    var samples := ReadRows(SliceFrom(rows, 1), ChannelsFrom, ChannelsTo, Some(TimeColumn)).value;
    var times := ToTimes(samples.times, clock).value;
    OneSecondOfData(samples.data, times, rate);
  }

  /**
   * Continuous mode writes exactly one GSR file and one PPG file per trial,
   * in trial order, both named after the trial's number and each holding at
   * least one whole second of samples.
   */
  lemma TwoFilesPerTrial(rows: seq<Row>, fileName: string, outputPath: string, rate: int, clock: string -> Result<int>)
    requires rate >= 1
    ensures var r := Preprocessed(rows, fileName, outputPath, Recording.CONTINUOUS, rate, clock);
      r.Ok? ==>
        var trials := LoadedTrials(rows, ChannelsFrom, ChannelsTo, Some(TimeColumn), TriggerColumn);
        trials.Ok? && |r.value| == 2 * |trials.value.data| &&
        forall i :: 0 <= i < |trials.value.data| ==>
          i < |trials.value.numbers| &&
          r.value[2 * i].path == SignalFile(outputPath, "gsr", TrialStem(fileName, trials.value.numbers[i])) &&
          r.value[2 * i + 1].path == SignalFile(outputPath, "ppg", TrialStem(fileName, trials.value.numbers[i])) &&
          exists seconds: nat :: seconds >= 1 && |r.value[2 * i].data| == |r.value[2 * i + 1].data| == rate * seconds
  {
    var r := Preprocessed(rows, fileName, outputPath, Recording.CONTINUOUS, rate, clock);
    if r.Ok? {
      var trials := LoadedTrials(rows, ChannelsFrom, ChannelsTo, Some(TimeColumn), TriggerColumn).value;
      var times := TrialTimes(trials.times, clock).value;
      var files := TrialOutputs(trials, times, fileName, outputPath, rate);
      var n := |trials.data|;
      forall i | 0 <= i < n && files(i).Ok?
        ensures |files(i).value| == 2
      {
        TrialFilesHold(trials, times, fileName, outputPath, rate, i);
      }
      EachTrialPairs(n, files);
      forall i | 0 <= i < n
        ensures i < |trials.numbers|
        ensures r.value[2 * i].path == SignalFile(outputPath, "gsr", TrialStem(fileName, trials.numbers[i]))
        ensures r.value[2 * i + 1].path == SignalFile(outputPath, "ppg", TrialStem(fileName, trials.numbers[i]))
        ensures exists seconds: nat :: seconds >= 1 && |r.value[2 * i].data| == |r.value[2 * i + 1].data| == rate * seconds
      {
        TrialFilesHold(trials, times, fileName, outputPath, rate, i);
      }
    }
  }

  /** The two files of one trial that does not raise. */
  lemma TrialFilesHold(trials: TrialSet, times: seq<seq<int>>, fileName: string, outputPath: string, rate: int, i: nat)
    requires rate >= 1
    ensures var r := TrialOutput(trials, times, fileName, outputPath, rate, i);
      r.Ok? ==>
        |r.value| == 2 && i < |trials.numbers| &&
        r.value[0].path == SignalFile(outputPath, "gsr", TrialStem(fileName, trials.numbers[i])) &&
        r.value[1].path == SignalFile(outputPath, "ppg", TrialStem(fileName, trials.numbers[i])) &&
        exists seconds: nat :: seconds >= 1 && |r.value[0].data| == |r.value[1].data| == rate * seconds
  {
    var r := TrialOutput(trials, times, fileName, outputPath, rate, i);
    if r.Ok? {
      var data := Resampled(trials.data[i], times[i], rate).value;
      ResampledWholeSeconds(trials.data[i], times[i], rate);
      var seconds: nat :| |data| == rate * seconds;
      assert seconds >= 1;
    }
  }

  /** Two different trial numbers, 0 or more, give two different GSR files. */
  lemma TrialFilesDistinct(outputPath: string, fileName: string, a: nat, b: nat)
    requires a != b
    ensures SignalFile(outputPath, "gsr", TrialStem(fileName, a)) != SignalFile(outputPath, "gsr", TrialStem(fileName, b))
  {
    var p := PathJoin(outputPath, "gsr") + "/" + "gsr" + Slice(fileName, 7, -4) + "-";
    TrialPath(outputPath, fileName, a);
    TrialPath(outputPath, fileName, b);
    ZFill2OfNat(a);
    ZFill2OfNat(b);
    MiddleDiffers(p, ZFill(IntToString(a), 2), ZFill(IntToString(b), 2), ".csv");
  }

  lemma TrialPath(outputPath: string, fileName: string, trial: int)
    ensures SignalFile(outputPath, "gsr", TrialStem(fileName, trial)) ==
      PathJoin(outputPath, "gsr") + "/" + "gsr" + Slice(fileName, 7, -4) + "-" + ZFill(IntToString(trial), 2) + ".csv"
  {
  }
}
