/**
 * `openbci_brainflow_preprocess` (octopus_sensing/preprocessing/openbci_brainflow.py):
 * the channel columns and trigger column chosen by the number of channels,
 * the cut to whole seconds, the output names and the check of the saving
 * mode. The file imports two loaders, `load_all_samples_without_time` and
 * `load_all_trials_without_time`, that utils.py does not define; the model
 * gives them the meaning of `load_all_samples` and `load_all_trials` with no
 * time column. mne's cleaning is not modelled: each output holds the cut
 * rows, as with `signal_preprocess=False`.
 */
module BrainFlowPreprocess {
  import opened Common
  import opened PreprocessUtils
  import Recording

  /** Channel columns [lo, hi) and the trigger column of a BrainFlow OpenBCI recording. */
  datatype Layout = Layout(lo: nat, hi: nat, trigCol: nat)

  /** Only 8 and 16 channels have a layout; any other count leaves the data unbound. */
  function LayoutOf(channelCount: int): (r: Option<Layout>)
    ensures r.Some? <==> channelCount == 8 || channelCount == 16
    ensures r.Some? ==> r.value.lo == 1 && r.value.hi == channelCount + 1 && r.value.trigCol == channelCount + 18
  {
    if channelCount == 8 then Some(Layout(1, 9, 26))
    else if channelCount == 16 then Some(Layout(1, 17, 34))
    else None
  }

  /**
   * `data[:int(len(data)/sampling_rate)*sampling_rate]`: the longest prefix
   * holding a whole number of seconds. Python's `int` truncates the quotient
   * toward zero, so a negative rate cuts like its absolute value; a rate of 0
   * divides by zero.
   */
  function WholeSeconds<T>(data: seq<T>, rate: int): (r: Result<seq<T>>)
  {
    if rate == 0 then Err("ZeroDivisionError")
    else
      var m := if rate < 0 then -rate else rate;
      Ok(data[..(|data| / m) * m])
  }

  /** The cut keeps a prefix whose length is a multiple of |rate| and drops fewer than |rate| items. */
  lemma WholeSecondsCut<T>(data: seq<T>, rate: int)
    ensures WholeSeconds(data, rate).Ok? <==> rate != 0
    ensures var r := WholeSeconds(data, rate); var m := if rate < 0 then -rate else rate;
      r.Ok? ==> |r.value| <= |data| && r.value == data[..|r.value|] &&
                (exists seconds: nat :: |r.value| == seconds * m) && |data| - |r.value| < m
  {
    if rate != 0 {
      var m := if rate < 0 then -rate else rate;
      var k := |data| / m;
      assert |data| == k * m + |data| % m;
      assert |WholeSeconds(data, rate).value| == k * m;
    }
  }

  /**
   * Separated mode: the channel columns of every row after the header, cut
   * to whole seconds, written by `to_csv` after a row of channel names.
   */
  function SeparatedFile(rows: seq<Row>, fileName: string, outputPath: string, channels: seq<string>, l: Layout,
                         rate: int): Result<seq<Output>>
  {
    var data := WholeSeconds(Columns(SliceFrom(rows, 1), l.lo, l.hi), rate);
    if data.Err? then Err(data.error) else Ok([Output(outputPath + "/" + fileName, CsvRows(channels, data.value))])
  }

  /**
   * Separated mode with 16 channels as written: a trailing comma makes the
   * loaded data the 1-tuple `(data,)`, and the cut then works on that tuple.
   */
  function SeparatedSixteenAsWritten(rows: seq<Row>, rate: int): Result<seq<seq<Row>>>
  {
    WholeSeconds([Columns(SliceFrom(rows, 1), 1, 17)], rate)
  }

  /**
   * With any rate of 2 or more in magnitude, the 1-tuple is cut to nothing: the
   * 16-channel separated output holds no rows, however long the recording,
   * while the intended cut keeps all but fewer than a second of them.
   */
  lemma SixteenChannelsLost(rows: seq<Row>, fileName: string, outputPath: string, channels: seq<string>, rate: int)
    requires rate >= 2 || rate <= -2
    ensures SeparatedSixteenAsWritten(rows, rate) == Ok([])
    ensures var r := SeparatedFile(rows, fileName, outputPath, channels, LayoutOf(16).value, rate);
      var m := if rate < 0 then -rate else rate;
      r.Ok? && |r.value| == 1 && [channels] <= r.value[0].data && |rows| - |r.value[0].data| < m
  {
    var m := if rate < 0 then -rate else rate;
    assert 1 / m == 0;
    WholeSecondsCut(Columns(SliceFrom(rows, 1), 1, 17), rate);
  }

  /** The file of trial i: its rows cut to whole seconds after a row of channel names, named after the trial number. */
  function TrialOutput(trials: TrialSet, fileName: string, outputPath: string, channels: seq<string>, rate: int, i: nat)
    : Result<seq<Output>>
  {
    if i >= |trials.data| || i >= |trials.numbers| then Err("IndexError")
    else
      var data := WholeSeconds(trials.data[i], rate);
      if data.Err? then Err(data.error)
      else Ok([Output(TrialFile(outputPath, fileName, trials.numbers[i]), CsvRows(channels, data.value))])
  }

  function TrialOutputs(trials: TrialSet, fileName: string, outputPath: string, channels: seq<string>, rate: int)
    : nat -> Result<seq<Output>>
  {
    (i: nat) => TrialOutput(trials, fileName, outputPath, channels, rate, i)
  }

  /**
   * `openbci_brainflow_preprocess` on the rows of the input file, with the
   * 16-channel separated case as evidently intended: the files it writes, or
   * the exception it raises.
   */
  function Preprocessed(rows: seq<Row>, fileName: string, outputPath: string, channels: seq<string>,
                        mode: int, rate: int): Result<seq<Output>>
  {
    var layout := LayoutOf(|channels|);
    if mode == Recording.SEPARATED then
      if layout.None? then Err("UnboundLocalError")
      else SeparatedFile(rows, fileName, outputPath, channels, layout.value, rate)
    else if mode == Recording.CONTINUOUS then
      if layout.None? then Err("UnboundLocalError")
      else
        var l := layout.value;
        var trials := LoadedTrials(rows, l.lo, l.hi, None, l.trigCol);
        if trials.Err? then Err(trials.error)
        else EachTrial(|trials.value.data|, TrialOutputs(trials.value, fileName, outputPath, channels, rate))
    else Err("Exception")
  }

  /** `openbci_brainflow_preprocess`, with its trial loop. */
  method Preprocess(rows: seq<Row>, fileName: string, outputPath: string, channels: seq<string>,
                    mode: int, rate: int) returns (r: Result<seq<Output>>)
    ensures r == Preprocessed(rows, fileName, outputPath, channels, mode, rate)
  {
    var layout := LayoutOf(|channels|);
    if mode == Recording.SEPARATED {
      if layout.None? {
        return Err("UnboundLocalError");
      }
      r := SeparatedFile(rows, fileName, outputPath, channels, layout.value, rate);
    } else if mode == Recording.CONTINUOUS {
      if layout.None? {
        return Err("UnboundLocalError");
      }
      var l := layout.value;
      var trials := LoadAllTrials(rows, l.lo, l.hi, None, l.trigCol);
      if trials.Err? {
        return Err(trials.error);
      }
      r := WriteEachTrial(|trials.value.data|, TrialOutputs(trials.value, fileName, outputPath, channels, rate));
    } else {
      r := Err("Exception");
    }
  }

  // ---------------------------------------------------------------- what openbci_brainflow_preprocess promises

  /** A saving mode other than separated (1) or continuous (0) raises. */
  lemma UnknownModeRaises(rows: seq<Row>, fileName: string, outputPath: string, channels: seq<string>, mode: int, rate: int)
    requires mode != Recording.SEPARATED && mode != Recording.CONTINUOUS
    ensures Preprocessed(rows, fileName, outputPath, channels, mode, rate) == Err("Exception")
  {
  }

  /**
   * Separated mode writes one file under the input file's name: a row of
   * channel names, then the channel columns of every row, cut to a whole
   * number of seconds.
   */
  lemma SeparatedKeepsName(rows: seq<Row>, fileName: string, outputPath: string, channels: seq<string>, rate: int)
    requires |channels| == 8 || |channels| == 16
    ensures var r := Preprocessed(rows, fileName, outputPath, channels, Recording.SEPARATED, rate);
      var data := Columns(SliceFrom(rows, 1), 1, |channels| + 1);
      var m := if rate < 0 then -rate else rate;
      (r.Ok? <==> rate != 0) &&
      (r.Ok? ==> |r.value| == 1 && r.value[0].path == outputPath + "/" + fileName &&
                 [channels] <= r.value[0].data &&
                 var out := r.value[0].data[1..];
                 |out| <= |data| && out == data[..|out|] &&
                 (exists seconds: nat :: |out| == seconds * m) && |data| - |out| < m)
  {
    WholeSecondsCut(Columns(SliceFrom(rows, 1), 1, |channels| + 1), rate);
  }

  /**
   * Continuous mode writes exactly one file per trial, in trial order, named
   * after the trial's number and holding a row of channel names, then the
   * trial cut to whole seconds.
   */
  lemma OneFilePerTrial(rows: seq<Row>, fileName: string, outputPath: string, channels: seq<string>, rate: int)
    requires rate != 0
    ensures var r := Preprocessed(rows, fileName, outputPath, channels, Recording.CONTINUOUS, rate);
      r.Ok? ==>
        var l := LayoutOf(|channels|).value;
        var trials := LoadedTrials(rows, l.lo, l.hi, None, l.trigCol);
        trials.Ok? && |r.value| == |trials.value.data| &&
        forall i :: 0 <= i < |r.value| ==>
          i < |trials.value.numbers| && r.value[i].path == TrialFile(outputPath, fileName, trials.value.numbers[i]) &&
          r.value[i].data == CsvRows(channels, WholeSeconds(trials.value.data[i], rate).value)
  {
    var r := Preprocessed(rows, fileName, outputPath, channels, Recording.CONTINUOUS, rate);
    if r.Ok? {
      var l := LayoutOf(|channels|).value;
      var trials := LoadedTrials(rows, l.lo, l.hi, None, l.trigCol).value;
      var files := TrialOutputs(trials, fileName, outputPath, channels, rate);
      var n := |trials.data|;
      forall i | 0 <= i < n && files(i).Ok?
        ensures |files(i).value| == 1
      {
      }
      EachTrialSingles(n, files);
      forall i | 0 <= i < n
        ensures i < |trials.numbers| && r.value[i].path == TrialFile(outputPath, fileName, trials.numbers[i])
        ensures r.value[i].data == CsvRows(channels, WholeSeconds(trials.data[i], rate).value)
      {
        assert files(i).Ok?;
      }
    }
  }
}
