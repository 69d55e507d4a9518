// OpenViBE TCP tagging (octopus_sensing/devices/open_vibe_streaming.py and
// the stand-alone client open-vibe-tagging.py): a tag is 24 bytes, eight
// zero bytes of padding, the event id and the time in milliseconds, each as
// eight little-endian bytes. The socket is left out: what was sent is a log
// of tags, and clock readings are parameters.

module OpenVibe {
  import opened Common
  import opened Messages
  import Recording

  // ---------------------------------------------------------------- little-endian bytes

  function Pow256(n: nat): (p: int)
    ensures p > 0
  {
    if n == 0 then 1 else 256 * Pow256(n - 1)
  }

  /** The number a run of bytes stands for, least significant byte first. */
  function LittleEndian(bs: seq<byte>): (v: int)
    ensures 0 <= v < Pow256(|bs|)
  {
    if bs == [] then 0 else bs[0] + 256 * LittleEndian(bs[1..])
  }

  /** `to_byte(value, length)`: the low byte, then the rest of the value floor-divided by 256, `length` times. */
  function ToByte(value: int, length: nat): (bs: seq<byte>)
    ensures |bs| == length
    decreases length
  {
    if length == 0 then [] else [value % 256] + ToByte(value / 256, length - 1)
  }

  /** v / m and v % m are the only quotient and remainder. */
  lemma DivModUnique(v: int, m: int, a: int, c: int)
    requires m > 0 && 0 <= c < m && v == m * a + c
    ensures v / m == a && v % m == c
  {
    var q, r := v / m, v % m;
    if q < a {
      assert m * (a - q) >= m by { MulAtLeast(m, a - q); }
      assert false;
    } else if q > a {
      assert m * (q - a) >= m by { MulAtLeast(m, q - a); }
      assert false;
    }
  }

  lemma MulAtLeast(m: int, k: int)
    requires m > 0 && k >= 1
    ensures m * k >= m
  {
    assert m * k == m + m * (k - 1);
  }

  /** Taking the remainder modulo 256^(n+1) is taking the low byte and the rest modulo 256^n. */
  lemma ModSplit(v: int, p: int)
    requires p > 0
    ensures v % (256 * p) == v % 256 + 256 * ((v / 256) % p)
  {
    var q, r := v / 256, v % 256;
    var a, b := q / p, q % p;
    assert v == (256 * p) * a + (256 * b + r) by {
      assert v == 256 * q + r;
      assert q == p * a + b;
    }
    assert 256 * b + r < 256 * p by { assert b <= p - 1; }
    DivModUnique(v, 256 * p, a, 256 * b + r);
  }

  /** `to_byte` gives bytes whose little-endian value is the value modulo 256^length. */
  lemma {:induction false} ToByteValue(value: int, length: nat)
    ensures LittleEndian(ToByte(value, length)) == value % Pow256(length)
    decreases length
  {
    if length == 0 {
      DivModUnique(value, 1, value, 0);
    } else {
      var bs := ToByte(value, length);
      assert bs[1..] == ToByte(value / 256, length - 1);
      ToByteValue(value / 256, length - 1);
      ModSplit(value, Pow256(length - 1));
    }
  }

  /** Reading bytes little-endian and writing the number back with `to_byte` gives the same bytes. */
  lemma {:induction false} ToByteOfLittleEndian(bs: seq<byte>)
    ensures ToByte(LittleEndian(bs), |bs|) == bs
    decreases |bs|
  {
    if bs != [] {
      var v := LittleEndian(bs);
      DivModUnique(v, 256, LittleEndian(bs[1..]), bs[0]);
      ToByteOfLittleEndian(bs[1..]);
    }
  }

  /** For a value that fits, `to_byte` is the inverse of reading little-endian. */
  lemma LittleEndianOfToByte(value: int, length: nat)
    requires 0 <= value < Pow256(length)
    ensures LittleEndian(ToByte(value, length)) == value
  {
    ToByteValue(value, length);
    DivModUnique(value, Pow256(length), 0, value);
  }

  /** `int.to_bytes(n, byteorder='little')`: refused with OverflowError for a negative value or one that needs more bytes. */
  function ToBytes(value: int, n: nat): (r: Result<seq<byte>>)
    ensures r.Ok? <==> 0 <= value < Pow256(n)
    ensures r.Ok? ==> |r.value| == n && LittleEndian(r.value) == value
    ensures r.Err? ==> r.error == "OverflowError"
  {
    if 0 <= value < Pow256(n) then LittleEndianOfToByte(value, n); Ok(ToByte(value, n))
    else Err("OverflowError")
  }

  // ---------------------------------------------------------------- tags

  const Padding: seq<byte> := [0, 0, 0, 0, 0, 0, 0, 0]

  /** `_send_trigger`: padding, event id and time, or the OverflowError of `to_bytes`. */
  function Tag(eventId: int, nowMs: int): (r: Result<seq<byte>>)
    ensures r.Ok? <==> 0 <= eventId < Pow256(8) && 0 <= nowMs < Pow256(8)
    ensures r.Ok? ==> |r.value| == 24 && r.value[..8] == Padding &&
                      LittleEndian(r.value[8..16]) == eventId && LittleEndian(r.value[16..]) == nowMs
    ensures r.Err? ==> r.error == "OverflowError"
  {
    var e := ToBytes(eventId, 8);
    var t := ToBytes(nowMs, 8);
    if e.Err? then Err(e.error)
    else if t.Err? then Err(t.error)
    else
      var bs := Padding + e.value + t.value;
      assert bs[8..16] == e.value && bs[16..] == t.value;
      Ok(bs)
  }

  /** What the acquisition server reads back from a tag: the event id and the time. */
  function DecodeTag(bs: seq<byte>): (r: (int, int))
    requires |bs| == 24
    ensures 0 <= r.0 < Pow256(8) && 0 <= r.1 < Pow256(8)
  {
    (LittleEndian(bs[8..16]), LittleEndian(bs[16..]))
  }

  /** Decoding a tag gives back the event id and the time it was built from. */
  lemma TagRoundTrip(eventId: int, nowMs: int)
    requires Tag(eventId, nowMs).Ok?
    ensures DecodeTag(Tag(eventId, nowMs).value) == (eventId, nowMs)
  {
  }

  /** Every 24 bytes that start with the padding are the tag of what they decode to. */
  lemma DecodeThenTag(bs: seq<byte>)
    requires |bs| == 24 && bs[..8] == Padding
    ensures Tag(DecodeTag(bs).0, DecodeTag(bs).1) == Ok(bs)
  {
    ToByteOfLittleEndian(bs[8..16]);
    ToByteOfLittleEndian(bs[16..]);
    assert bs == bs[..8] + bs[8..16] + bs[16..];
  }

  // ---------------------------------------------------------------- the stand-alone client

  /** The client's event id: stimulation 5 + 0x8100. */
  const EventId: int := 5 + 0x8100

  /** The client's artificial delay, in milliseconds. */
  const Delay: int := 0

  /** The tag the stand-alone client sends at a given time. */
  function ClientTag(nowMs: int): (bs: seq<byte>)
    ensures |bs| == 24 && bs[..8] == Padding
  {
    Padding + ToByte(EventId, 8) + ToByte(nowMs + Delay, 8)
  }

  /** The client's event id is sent as the bytes 0x05 0x81 followed by six zeros. */
  lemma ClientEventIdBytes()
    ensures ToByte(EventId, 8) == [0x05, 0x81, 0, 0, 0, 0, 0, 0]
  {
    assert EventId % 256 == 5 && EventId / 256 == 0x81;
    assert ToByte(EventId / 256, 7) == [0x81] + ToByte(0, 6);
    assert ToByte(0, 6) == [0, 0, 0, 0, 0, 0];
  }

  /** For any time that fits in eight bytes, the client builds the same tag as the device. */
  lemma ClientTagMatchesDevice(nowMs: int)
    requires 0 <= nowMs < Pow256(8)
    ensures Tag(EventId, nowMs) == Ok(ClientTag(nowMs))
  {
    assert Pow256(8) == 0x1_0000_0000_0000_0000;
  }

  // ---------------------------------------------------------------- the device loop

  /** What the device keeps: the ids of the last message and the tags sent. */
  datatype VibeState = VibeState(experimentId: Value, stimulusId: Value, sent: seq<seq<byte>>)

  function Initial(): VibeState
  {
    VibeState(VNone, VNone, [])
  }

  /** `event_id.to_bytes(...)` on a trigger: ints and bools have it, other objects raise AttributeError. */
  function TriggerTag(trigger: Value, nowMs: int): (r: Result<seq<byte>>)
    ensures trigger.VInt? ==> r == Tag(trigger.i, nowMs)
    ensures !trigger.VInt? && !trigger.VBool? ==> r == Err("AttributeError")
  {
    match trigger
    case VInt(i) => Tag(i, nowMs)
    case VBool(b) => Tag(if b then 1 else 0, nowMs)
    case _ => Err("AttributeError")
  }

  /** The loop's stopping rule as written: the type must be the lower-case word "terminate". */
  predicate StopsAsWritten(m: Message)
  {
    m.msgType == VStr("terminate")
  }

  /** The stopping rule evidently intended: the TERMINATE type the coordinator sends. */
  predicate Stops(m: Message)
  {
    m.msgType == VStr(TERMINATE)
  }

  /** The coordinator's terminate message does not stop the loop as written, and does with the corrected rule. */
  lemma TerminateMessageIgnoredAsWritten()
    ensures !StopsAsWritten(TerminateMessage())
    ensures Stops(TerminateMessage())
  {
    assert "TERMINATE"[0] != "terminate"[0];
  }

  /**
   * One message of `run` as written: every message that is not None first
   * reads `message.subject_id`, which Message does not have.
   */
  function VibeStepAsWritten(s: VibeState, msg: Option<Message>): (VibeState, Recording.Outcome)
  {
    if msg.None? then (s, Recording.Continue) else (s, Recording.Crash("AttributeError"))
  }

  function VibeRunAsWritten(s: VibeState, msgs: seq<Option<Message>>): (VibeState, Recording.Outcome)
    decreases |msgs|
  {
    if msgs == [] then (s, Recording.Continue)
    else
      var (t, out) := VibeStepAsWritten(s, msgs[0]);
      if out.Continue? then VibeRunAsWritten(t, msgs[1..]) else (t, out)
  }

  /** As written, no tag is ever sent, and the first real message ends the device with AttributeError. */
  lemma {:induction false} NothingSentAsWritten(s: VibeState, msgs: seq<Option<Message>>)
    ensures VibeRunAsWritten(s, msgs).0 == s
    ensures (exists i :: 0 <= i < |msgs| && msgs[i].Some?) ==> VibeRunAsWritten(s, msgs).1 == Recording.Crash("AttributeError")
    decreases |msgs|
  {
    if msgs != [] {
      NothingSentAsWritten(s, msgs[1..]);
      if msgs[0].None? && exists i :: 0 <= i < |msgs| && msgs[i].Some? {
        var i :| 0 <= i < |msgs| && msgs[i].Some?;
        assert msgs[1..][i - 1] == msgs[i];
      }
    }
  }

  /**
   * One message of `run` as evidently intended: keep the message's ids, stop
   * on TERMINATE, otherwise send the tag of `payload["trigger"]` at the
   * current time. `lookup` is that dictionary lookup, which may raise.
   */
  function VibeStep(s: VibeState, msg: Option<Message>, nowMs: int, lookup: Value -> Result<Value>): (VibeState, Recording.Outcome)
  {
    if msg.None? then (s, Recording.Continue)
    else
      var m := msg.value;
      var t := s.(experimentId := m.experimentId, stimulusId := m.stimulusId);
      if Stops(m) then (t, Recording.Exit)
      else
        var trigger := lookup(m.payload);
        if trigger.Err? then (t, Recording.Crash(trigger.error))
        else
          var tag := TriggerTag(trigger.value, nowMs);
          if tag.Err? then (t, Recording.Crash(tag.error))
          else (t.(sent := s.sent + [tag.value]), Recording.Continue)
  }

  function VibeRun(s: VibeState, msgs: seq<Option<Message>>, times: seq<int>, lookup: Value -> Result<Value>): (VibeState, Recording.Outcome)
    requires |times| == |msgs|
    decreases |msgs|
  {
    if msgs == [] then (s, Recording.Continue)
    else
      var (t, out) := VibeStep(s, msgs[0], times[0], lookup);
      if out.Continue? then VibeRun(t, msgs[1..], times[1..], lookup) else (t, out)
  }

  /**
   * A message that carries an event id that fits sends exactly one tag, which
   * decodes to that id and the current time; TERMINATE sends nothing and
   * ends the loop.
   */
  lemma OneTagPerTrigger(s: VibeState, m: Message, nowMs: int, lookup: Value -> Result<Value>, id: int)
    requires !Stops(m) && lookup(m.payload) == Ok(VInt(id))
    requires 0 <= id < Pow256(8) && 0 <= nowMs < Pow256(8)
    ensures var (t, out) := VibeStep(s, Some(m), nowMs, lookup);
      out == Recording.Continue && |t.sent| == |s.sent| + 1 && t.sent[..|s.sent|] == s.sent &&
      |t.sent[|s.sent|]| == 24 && DecodeTag(t.sent[|s.sent|]) == (id, nowMs)
  {
  }

  lemma TerminateSendsNothing(s: VibeState, nowMs: int, lookup: Value -> Result<Value>)
    ensures var (t, out) := VibeStep(s, Some(TerminateMessage()), nowMs, lookup);
      out == Recording.Exit && t.sent == s.sent
  {
  }

  /** An event id that does not fit in eight bytes ends the device with OverflowError, sending nothing. */
  lemma OversizedEventId(s: VibeState, m: Message, nowMs: int, lookup: Value -> Result<Value>, id: int)
    requires !Stops(m) && lookup(m.payload) == Ok(VInt(id))
    requires id < 0 || id >= Pow256(8)
    ensures var (t, out) := VibeStep(s, Some(m), nowMs, lookup);
      out == Recording.Crash("OverflowError") && t.sent == s.sent
  {
  }

  /** The device, with the fields `run` updates. */
  class OpenVibeDevice {
    var experimentId: Value
    var stimulusId: Value
    ghost var sent: seq<seq<byte>>

    ghost function Snap(): VibeState
      reads this
    {
      VibeState(experimentId, stimulusId, sent)
    }

    constructor()
      ensures Snap() == Initial()
    {
      experimentId := VNone;
      stimulusId := VNone;
      sent := [];
    }

    method Handle(msg: Option<Message>, nowMs: int, lookup: Value -> Result<Value>) returns (outcome: Recording.Outcome)
      modifies this
      ensures (Snap(), outcome) == VibeStep(old(Snap()), msg, nowMs, lookup)
    {
      outcome := Recording.Continue;
      if msg.None? {
        return;
      }
      var m := msg.value;
      experimentId := m.experimentId;
      stimulusId := m.stimulusId;
      if Stops(m) {
        outcome := Recording.Exit;
        return;
      }
      var trigger := lookup(m.payload);
      if trigger.Err? {
        outcome := Recording.Crash(trigger.error);
        return;
      }
      var tag := TriggerTag(trigger.value, nowMs);
      if tag.Err? {
        outcome := Recording.Crash(tag.error);
        return;
      }
      sent := sent + [tag.value];
    }

    /** `run`: handle messages, each at its own clock reading, until one ends the loop. */
    method Run(msgs: seq<Option<Message>>, times: seq<int>, lookup: Value -> Result<Value>) returns (consumed: nat, outcome: Recording.Outcome)
      requires |times| == |msgs|
      modifies this
      ensures consumed <= |msgs|
      ensures (Snap(), outcome) == VibeRun(old(Snap()), msgs, times, lookup)
      ensures outcome.Continue? ==> consumed == |msgs|
    {
      consumed := 0;
      outcome := Recording.Continue;
      while consumed < |msgs| && outcome.Continue?
        invariant consumed <= |msgs|
        invariant outcome.Continue? ==> VibeRun(old(Snap()), msgs, times, lookup) == VibeRun(Snap(), msgs[consumed..], times[consumed..], lookup)
        invariant !outcome.Continue? ==> VibeRun(old(Snap()), msgs, times, lookup) == (Snap(), outcome)
      {
        outcome := Handle(msgs[consumed], times[consumed], lookup);
        assert msgs[consumed..][1..] == msgs[consumed + 1..];
        assert times[consumed..][1..] == times[consumed + 1..];
        consumed := consumed + 1;
      }
    }
  }
}
