/**
 * How the triggers the recorders write (octopus_sensing/devices) are read back
 * by load_all_trials (octopus_sensing/preprocessing/utils.py): the two halves
 * of the continuous-mode file format meet here.
 */
module TrialTriggers {
  import opened Common
  import opened Messages
  import Recording
  import PreprocessUtils

  /**
   * A trigger a recorder writes, "<type>-<experiment id>-<two digits>", reads
   * back with the first four characters of its type as its action and with the
   * stimulus id as the trial number.
   */
  lemma TriggerReadBack(kind: string, experimentId: string, stimulus: nat)
    requires |kind| >= 4 && stimulus < 100
    ensures var t := Recording.TriggerText(Message(VStr(kind), VNone, VStr(experimentId), VInt(stimulus)));
      t != "" && PreprocessUtils.Action(t) == kind[..4] && PreprocessUtils.TrialNumber(t) == Ok(stimulus)
  {
    TriggerAction(kind, experimentId, stimulus);
    TriggerNumber(kind, experimentId, stimulus);
  }

  /**
   * A recording as a continuous-mode recorder leaves it: a header, unmarked
   * rows, a START row, unmarked rows and a STOP row for the same stimulus.
   * `load_all_trials` returns exactly one trial, from the START row up to but
   * not including the STOP row, numbered with the stimulus id.
   */
  lemma RecordedTrialRead(header: PreprocessUtils.Row, before: seq<PreprocessUtils.Row>, start: PreprocessUtils.Row, middle: seq<PreprocessUtils.Row>, stop: PreprocessUtils.Row,
                          experimentId: string, stimulus: nat, lo: int, hi: int, timeCol: Option<nat>, trigCol: nat)
    requires stimulus < 100
    requires PreprocessUtils.Unmarked(before, trigCol) && PreprocessUtils.Unmarked(middle, trigCol)
    requires PreprocessUtils.Timed([start] + middle, timeCol)
    requires |start| > trigCol && start[trigCol] == Recording.TriggerText(StartMessage(VStr(experimentId), VInt(stimulus)))
    requires |stop| > trigCol && stop[trigCol] == Recording.TriggerText(StopMessage(VStr(experimentId), VInt(stimulus)))
    ensures PreprocessUtils.LoadedTrials([header] + before + [start] + middle + [stop], lo, hi, timeCol, trigCol) ==
      Ok(PreprocessUtils.TrialSet([PreprocessUtils.Columns([start] + middle, lo, hi)],
                                  [PreprocessUtils.TimeCells([start] + middle, timeCol)], [stimulus]))
  {
    StartRead(start, experimentId, stimulus, trigCol);
    StopRead(stop, experimentId, stimulus, trigCol);
    PreprocessUtils.LoadedOneTrial(header, before, start, middle, stop, lo, hi, timeCol, trigCol);
  }

  /** A row carrying a recorder's START trigger starts a trial. */
  lemma StartRead(start: PreprocessUtils.Row, experimentId: string, stimulus: nat, trigCol: nat)
    requires stimulus < 100
    requires |start| > trigCol && start[trigCol] == Recording.TriggerText(StartMessage(VStr(experimentId), VInt(stimulus)))
    ensures PreprocessUtils.StartsTrial(start, trigCol)
  {
    assert StartMessage(VStr(experimentId), VInt(stimulus)) == Message(VStr(START), VNone, VStr(experimentId), VInt(stimulus));
    TriggerReadBack(START, experimentId, stimulus);
  }

  /** A row carrying a recorder's STOP trigger stops a trial, numbered with the stimulus id. */
  lemma StopRead(stop: PreprocessUtils.Row, experimentId: string, stimulus: nat, trigCol: nat)
    requires stimulus < 100
    requires |stop| > trigCol && stop[trigCol] == Recording.TriggerText(StopMessage(VStr(experimentId), VInt(stimulus)))
    ensures PreprocessUtils.StopsTrial(stop, trigCol) && PreprocessUtils.TrialNumber(stop[trigCol]) == Ok(stimulus)
  {
    assert StopMessage(VStr(experimentId), VInt(stimulus)) == Message(VStr(STOP), VNone, VStr(experimentId), VInt(stimulus));
    TriggerReadBack(STOP, experimentId, stimulus);
  }

  lemma TriggerAction(kind: string, experimentId: string, stimulus: nat)
    requires |kind| >= 4 && stimulus < 100
    ensures var t := Recording.TriggerText(Message(VStr(kind), VNone, VStr(experimentId), VInt(stimulus)));
      |t| >= 4 && PreprocessUtils.Action(t) == kind[..4]
  {
    var t := Recording.TriggerText(Message(VStr(kind), VNone, VStr(experimentId), VInt(stimulus)));
    Recording.TriggerOfStringIds(kind, experimentId, stimulus);
    PrefixOfConcat(kind, "-" + experimentId + "-" + [DigitChar(stimulus / 10), DigitChar(stimulus % 10)], 4);
    assert PreprocessUtils.Action(t) == t[..4];
  }

  lemma TriggerNumber(kind: string, experimentId: string, stimulus: nat)
    requires stimulus < 100
    ensures var t := Recording.TriggerText(Message(VStr(kind), VNone, VStr(experimentId), VInt(stimulus)));
      PreprocessUtils.TrialNumber(t) == Ok(stimulus)
  {
    var t := Recording.TriggerText(Message(VStr(kind), VNone, VStr(experimentId), VInt(stimulus)));
    Recording.TriggerOfStringIds(kind, experimentId, stimulus);
    var d := [DigitChar(stimulus / 10), DigitChar(stimulus % 10)];
    assert SliceFrom(t, -2) == d;
    TwoDigits(stimulus);
    ZFill2OfNat(stimulus);
  }

  lemma PrefixOfConcat<T>(a: seq<T>, b: seq<T>, n: nat)
    requires n <= |a|
    ensures (a + b)[..n] == a[..n]
  {
  }
}
