/**
 * `openbci_preprocess` (octopus_sensing/preprocessing/openbci.py): the column
 * layout chosen by the number of channels, the output file of each trial and
 * the check of the saving mode. Line-noise cleaning with mne and the scaling
 * by 1e6 are floating point and are not modelled: each output holds the
 * resampled rows, as with `signal_preprocess=False`.
 */
module OpenBciPreprocess {
  import opened Common
  import opened PreprocessUtils
  import Recording
  import OpenBci

  /** Where a recorded OpenBCI file keeps its channels, its time stamps and its triggers. */
  datatype Layout = Layout(lo: nat, hi: nat, timeCol: nat, trigCol: nat)

  /** Only 8 and 16 channels have a layout; any other count leaves `data` unbound. */
  function LayoutOf(channelCount: int): (r: Option<Layout>)
    ensures r.Some? <==> channelCount == 8 || channelCount == 16
    ensures r.Some? ==> r.value == Layout(0, channelCount, channelCount + 4, channelCount + 5)
  {
    if channelCount == 8 then Some(Layout(0, 8, 12, 13))
    else if channelCount == 16 then Some(Layout(0, 16, 20, 21))
    else None
  }

  /**
   * The layout reads the columns the OpenBCI recorder writes: the channels,
   * then "time stamp", then "trigger".
   */
  lemma LayoutMatchesHeader(channels: seq<string>)
    requires |channels| == 8 || |channels| == 16
    ensures var l := LayoutOf(|channels|).value; var h := OpenBci.Header(channels);
      l.hi <= l.timeCol < l.trigCol < |h| &&
      h[l.lo..l.hi] == channels && h[l.timeCol] == "time stamp" && h[l.trigCol] == "trigger"
  {
    var h := OpenBci.Header(channels);
    var n := |channels|;
    assert h[n..][4] == "time stamp" && h[n..][5] == "trigger";
  }

  /**
   * `pd.DataFrame(resampled_data, columns=channels)`: an empty resample is
   * the one-dimensional `np.array([])`, whose single column does not fit the
   * channel names, and raises ValueError; otherwise the frame is written
   * with its header row.
   */
  function Frame(channels: seq<string>, data: seq<Row>): Result<seq<Row>>
  {
    if data == [] then Err("ValueError") else Ok(CsvRows(channels, data))
  }

  /** Separated mode: the whole file, resampled, written under the input file's own name. */
  function SeparatedFile(rows: seq<Row>, fileName: string, outputPath: string, channels: seq<string>, l: Layout,
                         rate: int, clock: string -> Result<int>): Result<seq<Output>>
  {
    var samples := ReadRows(SliceFrom(rows, 1), l.lo, l.hi, Some(l.timeCol));
    if samples.Err? then Err(samples.error)
    else
      var times := ToTimes(samples.value.times, clock);
      if times.Err? then Err(times.error)
      else
        var data := Resampled(samples.value.data, times.value, rate);
        if data.Err? then Err(data.error)
        else
          var frame := Frame(channels, data.value);
          if frame.Err? then Err(frame.error) else Ok([Output(outputPath + "/" + fileName, frame.value)])
  }

  /** The file of trial i: its rows resampled, named after the trial number. */
  function TrialOutput(trials: TrialSet, times: seq<seq<int>>, fileName: string, outputPath: string,
                       channels: seq<string>, rate: int, i: nat): Result<seq<Output>>
  {
    if i >= |trials.data| || i >= |trials.numbers| || i >= |times| then Err("IndexError")
    else
      var data := Resampled(trials.data[i], times[i], rate);
      if data.Err? then Err(data.error)
      else
        var frame := Frame(channels, data.value);
        if frame.Err? then Err(frame.error) else Ok([Output(TrialFile(outputPath, fileName, trials.numbers[i]), frame.value)])
  }

  function TrialOutputs(trials: TrialSet, times: seq<seq<int>>, fileName: string, outputPath: string,
                        channels: seq<string>, rate: int): nat -> Result<seq<Output>>
  {
    (i: nat) => TrialOutput(trials, times, fileName, outputPath, channels, rate, i)
  }

  /** `openbci_preprocess` on the rows of the input file: the files it writes, or the exception it raises. */
  function Preprocessed(rows: seq<Row>, fileName: string, outputPath: string, channels: seq<string>,
                        mode: int, rate: int, clock: string -> Result<int>): Result<seq<Output>>
  {
    var layout := LayoutOf(|channels|);
    if mode == Recording.SEPARATED then
      if layout.None? then Err("UnboundLocalError")
      else SeparatedFile(rows, fileName, outputPath, channels, layout.value, rate, clock)
    else if mode == Recording.CONTINUOUS then
      if layout.None? then Err("UnboundLocalError")
      else
        var l := layout.value;
        var trials := LoadedTrials(rows, l.lo, l.hi, Some(l.timeCol), l.trigCol);
        if trials.Err? then Err(trials.error)
        else
          var times := TrialTimes(trials.value.times, clock);
          if times.Err? then Err(times.error)
          else EachTrial(|trials.value.data|, TrialOutputs(trials.value, times.value, fileName, outputPath, channels, rate))
    else Err("Exception")
  }

  /** `openbci_preprocess`, with the trial loop and its counter as the source writes them. */
  method Preprocess(rows: seq<Row>, fileName: string, outputPath: string, channels: seq<string>,
                    mode: int, rate: int, clock: string -> Result<int>) returns (r: Result<seq<Output>>)
    ensures r == Preprocessed(rows, fileName, outputPath, channels, mode, rate, clock)
  {
    var layout := LayoutOf(|channels|);
    if mode == Recording.SEPARATED {
      if layout.None? {
        return Err("UnboundLocalError");
      }
      r := SeparatedFile(rows, fileName, outputPath, channels, layout.value, rate, clock);
    } else if mode == Recording.CONTINUOUS {
      if layout.None? {
        return Err("UnboundLocalError");
      }
      var l := layout.value;
      var trials := LoadAllTrials(rows, l.lo, l.hi, Some(l.timeCol), l.trigCol);
      if trials.Err? {
        return Err(trials.error);
      }
      var times := TrialTimes(trials.value.times, clock);
      if times.Err? {
        return Err(times.error);
      }
      r := WriteEachTrial(|trials.value.data|, TrialOutputs(trials.value, times.value, fileName, outputPath, channels, rate));
    } else {
      r := Err("Exception");
    }
  }

  // ---------------------------------------------------------------- what openbci_preprocess promises

  /** A saving mode other than separated (1) or continuous (0) raises. */
  lemma UnknownModeRaises(rows: seq<Row>, fileName: string, outputPath: string, channels: seq<string>,
                          mode: int, rate: int, clock: string -> Result<int>)
    requires mode != Recording.SEPARATED && mode != Recording.CONTINUOUS
    ensures Preprocessed(rows, fileName, outputPath, channels, mode, rate, clock) == Err("Exception")
  {
  }

  /** A known saving mode with neither 8 nor 16 channels fails on the unbound data. */
  lemma OtherChannelCountsRaise(rows: seq<Row>, fileName: string, outputPath: string, channels: seq<string>,
                                mode: int, rate: int, clock: string -> Result<int>)
    requires mode == Recording.SEPARATED || mode == Recording.CONTINUOUS
    requires |channels| != 8 && |channels| != 16
    ensures Preprocessed(rows, fileName, outputPath, channels, mode, rate, clock) == Err("UnboundLocalError")
  {
  }

  /**
   * Separated mode writes one file, under the input file's name: the channel
   * names, then at least one whole second of rows.
   */
  lemma SeparatedKeepsName(rows: seq<Row>, fileName: string, outputPath: string, channels: seq<string>,
                           rate: int, clock: string -> Result<int>)
    requires rate >= 1
    ensures var r := Preprocessed(rows, fileName, outputPath, channels, Recording.SEPARATED, rate, clock);
      r.Ok? ==> |r.value| == 1 && r.value[0].path == outputPath + "/" + fileName &&
                [channels] <= r.value[0].data &&
                exists seconds: nat :: seconds >= 1 && |r.value[0].data| == 1 + rate * seconds
  {
    var r := Preprocessed(rows, fileName, outputPath, channels, Recording.SEPARATED, rate, clock);
    if r.Ok? {
      var l := LayoutOf(|channels|).value;
      var samples := ReadRows(SliceFrom(rows, 1), l.lo, l.hi, Some(l.timeCol)).value;
      var times := ToTimes(samples.times, clock).value;
      ResampledWholeSeconds(samples.data, times, rate);
      var seconds: nat :| |Resampled(samples.data, times, rate).value| == rate * seconds;
      assert r.value[0].data == CsvRows(channels, Resampled(samples.data, times, rate).value);
      assert seconds >= 1;
    }
  }

  /**
   * A separated recording whose samples all lie within its first second and
   * number at most half the rate resamples to nothing, and the data frame
   * built from it raises ValueError: no file is written.
   */
  lemma ShortRecordingRaises(rows: seq<Row>, fileName: string, outputPath: string, channels: seq<string>,
                             rate: int, clock: string -> Result<int>)
    requires rate >= 1 && (|channels| == 8 || |channels| == 16)
    requires var l := LayoutOf(|channels|).value;
      var samples := ReadRows(SliceFrom(rows, 1), l.lo, l.hi, Some(l.timeCol));
      samples.Ok? && samples.value.data != [] && 2 * |samples.value.data| <= rate &&
      var times := ToTimes(samples.value.times, clock);
      times.Ok? && forall i :: 0 <= i < |times.value| ==> times.value[i] - times.value[0] <= Second
    ensures Preprocessed(rows, fileName, outputPath, channels, Recording.SEPARATED, rate, clock) == Err("ValueError")
  {
    var l := LayoutOf(|channels|).value;
    var samples := ReadRows(SliceFrom(rows, 1), l.lo, l.hi, Some(l.timeCol)).value;
    var times := ToTimes(samples.times, clock).value;
    OneSecondOfData(samples.data, times, rate);
  }

  /**
   * Continuous mode writes exactly one file per trial, in trial order, named
   * after that trial's number, each holding the channel names and then at
   * least one whole second of rows.
   */
  lemma OneFilePerTrial(rows: seq<Row>, fileName: string, outputPath: string, channels: seq<string>,
                        rate: int, clock: string -> Result<int>)
    requires rate >= 1
    ensures var r := Preprocessed(rows, fileName, outputPath, channels, Recording.CONTINUOUS, rate, clock);
      r.Ok? ==>
        var l := LayoutOf(|channels|).value;
        var trials := LoadedTrials(rows, l.lo, l.hi, Some(l.timeCol), l.trigCol);
        trials.Ok? && |r.value| == |trials.value.data| &&
        forall i :: 0 <= i < |r.value| ==>
          i < |trials.value.numbers| && r.value[i].path == TrialFile(outputPath, fileName, trials.value.numbers[i]) &&
          [channels] <= r.value[i].data &&
          exists seconds: nat :: seconds >= 1 && |r.value[i].data| == 1 + rate * seconds
  {
    var r := Preprocessed(rows, fileName, outputPath, channels, Recording.CONTINUOUS, rate, clock);
    if r.Ok? {
      var l := LayoutOf(|channels|).value;
      var trials := LoadedTrials(rows, l.lo, l.hi, Some(l.timeCol), l.trigCol).value;
      var times := TrialTimes(trials.times, clock).value;
      var files := TrialOutputs(trials, times, fileName, outputPath, channels, rate);
      var n := |trials.data|;
      forall i | 0 <= i < n && files(i).Ok?
        ensures |files(i).value| == 1
      {
        TrialFileHolds(trials, times, fileName, outputPath, channels, rate, i);
      }
      EachTrialSingles(n, files);
      forall i | 0 <= i < n
        ensures i < |trials.numbers| && r.value[i].path == TrialFile(outputPath, fileName, trials.numbers[i])
        ensures [channels] <= r.value[i].data
        ensures exists seconds: nat :: seconds >= 1 && |r.value[i].data| == 1 + rate * seconds
      {
        TrialFileHolds(trials, times, fileName, outputPath, channels, rate, i);
      }
    }
  }

  /** The file of one trial that does not raise. */
  lemma TrialFileHolds(trials: TrialSet, times: seq<seq<int>>, fileName: string, outputPath: string,
                       channels: seq<string>, rate: int, i: nat)
    requires rate >= 1
    ensures var r := TrialOutput(trials, times, fileName, outputPath, channels, rate, i);
      r.Ok? ==>
        |r.value| == 1 && i < |trials.numbers| &&
        r.value[0].path == TrialFile(outputPath, fileName, trials.numbers[i]) && [channels] <= r.value[0].data &&
        exists seconds: nat :: seconds >= 1 && |r.value[0].data| == 1 + rate * seconds
  {
    var r := TrialOutput(trials, times, fileName, outputPath, channels, rate, i);
    if r.Ok? {
      var data := Resampled(trials.data[i], times[i], rate).value;
      ResampledWholeSeconds(trials.data[i], times[i], rate);
      var seconds: nat :| |data| == rate * seconds;
      assert r.value[0].data == CsvRows(channels, data);
      assert seconds >= 1;
    }
  }
}
