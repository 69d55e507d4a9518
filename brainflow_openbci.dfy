// OpenBCI boards through BrainFlow
// (octopus_sensing/devices/brainflow_openbci_streaming.py): a BrainFlow
// device that picks the board from its type, names its channels and writes a
// header of its own, ending in the trigger column.

module BrainFlowOpenBci {
  import opened Common
  import opened Messages
  import opened Recording
  import BrainFlow

  /** The board BrainFlow is asked for: its id, its sampling rate and the channel names. */
  datatype Board = Board(deviceId: int, samplingRate: int, channels: seq<string>)

  const DefaultBoardType: string := "cyton-daisy"

  function DefaultChannels(n: nat): (names: seq<string>)
    ensures |names| == n
    ensures forall i :: 0 <= i < n ==> names[i] == "ch" + IntToString(i + 1)
  {
    seq(n, i requires 0 <= i < n => "ch" + IntToString(i + 1))
  }

  /**
   * The constructor's choice of board. "cyton-daisy" is board 2 at 125 Hz
   * and needs 16 channel names (the defaults when none are given); "cyton"
   * (board 0, 250 Hz) and "Ganglion" (board 1, 200 Hz) always use their
   * default names, whatever order was given; any other type is refused.
   */
  function SelectBoard(boardType: string, order: Option<seq<string>>): (r: Result<Board>)
    ensures r.Err? ==> r.error == "RuntimeError"
    ensures r.Ok? <==> (boardType == "cyton" || boardType == "Ganglion" ||
                        (boardType == "cyton-daisy" && (order.None? || |order.value| == 16)))
    ensures r.Ok? && boardType == "cyton-daisy" ==>
      r.value.deviceId == 2 && r.value.samplingRate == 125 &&
      r.value.channels == (if order.Some? then order.value else DefaultChannels(16))
    ensures r.Ok? && boardType == "cyton" ==> r.value == Board(0, 250, DefaultChannels(8))
    ensures r.Ok? && boardType == "Ganglion" ==> r.value == Board(1, 200, DefaultChannels(4))
  {
    if boardType == "cyton-daisy" then
      var channels := if order.Some? then order.value else DefaultChannels(16);
      if |channels| != 16 then Err("RuntimeError") else Ok(Board(2, 125, channels))
    else if boardType == "cyton" then Ok(Board(0, 250, DefaultChannels(8)))
    else if boardType == "Ganglion" then Ok(Board(1, 200, DefaultChannels(4)))
    else Err("RuntimeError")
  }

  /** The board type is compared exactly: "ganglion" in lower case is refused. */
  lemma LowerCaseGanglionRefused(order: Option<seq<string>>)
    ensures SelectBoard("ganglion", order) == Err("RuntimeError")
  {
    assert "ganglion" != "Ganglion" by { assert "ganglion"[0] != "Ganglion"[0]; }
    assert "ganglion" != "cyton-daisy" by { assert |"ganglion"| != |"cyton-daisy"|; }
    assert "ganglion" != "cyton" by { assert |"ganglion"| != |"cyton"|; }
  }

  /** The 21 columns BrainFlow adds after the channels, the last being the trigger. */
  const BoardColumns: seq<string> :=
    ["Analog Ch0", "Analog Ch1", "Analog Ch2", "Accel X", "Accel Y", "Accel Z", "Battery", "Board ID",
     "Reserved1", "Reserved2", "Reserved3", "Reserved4", "Reserved5", "Reserved6", "Reserved7", "Reserved8",
     "Unix Timestamp", "Unused9", "Time (H:M:S)", "Timestamp", "trigger"]

  /** `_save_to_file`'s header: the sample number, the channels, then the board's own columns. */
  function Header(channels: seq<string>): (h: seq<string>)
    ensures |h| == |channels| + 22
    ensures h[0] == "Sample Number" && h[1..|channels| + 1] == channels
    ensures h[|channels| + 21] == "trigger"
  {
    assert |BoardColumns| == 21;
    ["Sample Number"] + channels + BoardColumns
  }

  function HeaderRow(channels: seq<string>): Row
  {
    seq(|Header(channels)|, i requires 0 <= i < |Header(channels)| => Text(Header(channels)[i]))
  }

  /** The BrainFlow protocol, with the board's header in every new file. */
  function DeviceConfig(name: string, outputPath: string, savingMode: int, board: Board): (cfg: Config)
    ensures cfg == BrainFlow.DeviceConfig(name, outputPath, savingMode).(header := Some(HeaderRow(board.channels)))
  {
    BrainFlow.DeviceConfig(name, outputPath, savingMode).(header := Some(HeaderRow(board.channels)))
  }

  /**
   * `_get_realtime_data`, now that `get_channels` answers: the latest
   * `duration * rate` rows and the board's channel names.
   */
  function RealtimeData(buffer: seq<Row>, duration: int, board: Board): (r: (seq<Row>, seq<string>))
    ensures r.1 == board.channels
    ensures duration > 0 && board.samplingRate > 0 ==>
      var n := if duration * board.samplingRate < |buffer| then duration * board.samplingRate else |buffer|;
      r.0 == buffer[|buffer| - n..]
  {
    if duration > 0 && board.samplingRate > 0 then
      LatestRowsAreTheNewest(buffer, duration, board.samplingRate);
      (LatestRows(buffer, duration, board.samplingRate), board.channels)
    else (LatestRows(buffer, duration, board.samplingRate), board.channels)
  }

  /** A cyton-daisy file's header has 38 columns: the sample number, 16 channels and the 21 board columns. */
  lemma DaisyHeaderWidth(order: Option<seq<string>>)
    requires SelectBoard("cyton-daisy", order).Ok?
    ensures |Header(SelectBoard("cyton-daisy", order).value.channels)| == 38
  {
  }
}
