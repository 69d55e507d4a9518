// The socket trigger device (octopus_sensing/devices/network_devices/socket_device.py):
// a TCP server that forwards every control message to all connected clients
// as one line of text. Sockets and the sending threads are left out: a
// connection is a number, and what was sent is a ghost log of packets, in
// the order of the connections.

module SocketDevice {
  import opened Common
  import opened Messages
  import Recording

  /** One line sent on one connection. */
  datatype Packet = Packet(connection: nat, text: string)

  /** What the device keeps between messages. */
  datatype SocketState = SocketState(
    trigger: Option<string>,
    experimentId: Value,
    stopListening: bool,
    connections: seq<nat>,
    sent: seq<Packet>
  )

  function Initial(): SocketState
  {
    SocketState(None, VNone, false, [], [])
  }

  /**
   * The line a message is forwarded as: "<type>-<experiment>-<stimulus
   * padded to two digits>" for START and STOP, "SAVE-<experiment>" for SAVE,
   * "terminate" for TERMINATE; any other message is not forwarded.
   */
  function TriggerOf(m: Message): (t: Option<string>)
    ensures t.Some? <==> Kind(m).Some?
    ensures Kind(m) == Some(START) || Kind(m) == Some(STOP) ==> t == Some(Recording.TriggerText(m))
    ensures Kind(m) == Some(SAVE) ==> t == Some(SAVE + "-" + Str(m.experimentId))
    ensures Kind(m) == Some(TERMINATE) ==> t == Some("terminate")
  {
    if m.msgType == VStr(START) || m.msgType == VStr(STOP) then Some(Recording.TriggerText(m))
    else if m.msgType == VStr(SAVE) then Some(SAVE + "-" + Str(m.experimentId))
    else if m.msgType == VStr(TERMINATE) then Some("terminate")
    else None
  }

  /** Every connection, in order, receives the trigger followed by one newline. */
  function Broadcast(text: string, connections: seq<nat>): (ps: seq<Packet>)
  {
    seq(|connections|, i requires 0 <= i < |connections| => Packet(connections[i], text + "\n"))
  }

  /**
   * `__send_message` as written: each send first appends a newline to the
   * stored trigger itself, then sends all of it. Returns the packets and the
   * stored trigger afterwards.
   */
  function BroadcastAsWritten(text: string, connections: seq<nat>): (r: (seq<Packet>, string))
    ensures |r.0| == |connections|
    decreases |connections|
  {
    if connections == [] then ([], text)
    else
      var t := text + "\n";
      var rest := BroadcastAsWritten(t, connections[1..]);
      ([Packet(connections[0], t)] + rest.0, rest.1)
  }

  /** As written, the i-th connection receives the trigger followed by i + 1 newlines, and the stored trigger keeps them all. */
  lemma {:induction false} AsWrittenNewlines(text: string, connections: seq<nat>)
    ensures var r := BroadcastAsWritten(text, connections);
      |r.0| == |connections| &&
      (forall i :: 0 <= i < |connections| ==> r.0[i] == Packet(connections[i], text + Repeat('\n', i + 1))) &&
      r.1 == text + Repeat('\n', |connections|)
    decreases |connections|
  {
    if connections != [] {
      var t := text + "\n";
      AsWrittenNewlines(t, connections[1..]);
      var r := BroadcastAsWritten(text, connections);
      forall i | 0 <= i < |connections|
        ensures r.0[i] == Packet(connections[i], text + Repeat('\n', i + 1))
      {
        if i > 0 {
          assert r.0[i] == BroadcastAsWritten(t, connections[1..]).0[i - 1];
          assert Repeat('\n', i + 1) == ['\n'] + Repeat('\n', i);
        } else {
          assert Repeat('\n', 1) == "\n";
        }
      }
      assert Repeat('\n', |connections|) == ['\n'] + Repeat('\n', |connections| - 1);
    }
  }

  /** With two clients, the second receives two newlines as written, where one is meant. */
  lemma SecondClientGetsTwoNewlines(text: string, c1: nat, c2: nat)
    ensures BroadcastAsWritten(text, [c1, c2]).0[1] == Packet(c2, text + "\n\n")
    ensures Broadcast(text, [c1, c2])[1] == Packet(c2, text + "\n")
  {
    AsWrittenNewlines(text, [c1, c2]);
    assert Repeat('\n', 2) == "\n\n";
  }

  /** The corrected broadcast agrees with the one as written exactly when there is at most one client. */
  lemma BroadcastAgreesWithOneClient(text: string, connections: seq<nat>)
    ensures BroadcastAsWritten(text, connections).0 == Broadcast(text, connections) <==> |connections| <= 1
  {
    AsWrittenNewlines(text, connections);
    if |connections| == 1 {
      assert Repeat('\n', 1) == "\n";
    } else if |connections| > 1 {
      var a := BroadcastAsWritten(text, connections).0[1].text;
      assert a == text + Repeat('\n', 2);
      assert |a| != |Broadcast(text, connections)[1].text|;
    }
  }

  /** `_accept_connections`: a client is taken on while the server still listens. */
  function Accepted(s: SocketState, connection: nat): (t: SocketState)
    ensures t.connections == (if s.stopListening then s.connections else s.connections + [connection])
    ensures t.(connections := s.connections) == s
  {
    if s.stopListening then s else s.(connections := s.connections + [connection])
  }

  /**
   * What `_run` does with one message: record the experiment id (not on
   * TERMINATE), store the trigger and send it to every client; TERMINATE
   * also stops the listener and ends the loop (the boolean).
   */
  function SocketStep(s: SocketState, msg: Option<Message>): (SocketState, bool)
  {
    if msg.None? then (s, false)
    else
      var m := msg.value;
      var t := TriggerOf(m);
      if t.None? then (s, false)
      else if m.msgType == VStr(TERMINATE) then
        (s.(trigger := t, stopListening := true, sent := s.sent + Broadcast(t.value, s.connections)), true)
      else
        (s.(trigger := t, experimentId := m.experimentId, sent := s.sent + Broadcast(t.value, s.connections)), false)
  }

  /** Messages handled one after the other until TERMINATE. */
  function SocketRun(s: SocketState, msgs: seq<Option<Message>>): (SocketState, bool)
    decreases |msgs|
  {
    if msgs == [] then (s, false)
    else
      var (t, exit) := SocketStep(s, msgs[0]);
      if exit then (t, true) else SocketRun(t, msgs[1..])
  }

  // ---------------------------------------------------------------- properties

  /** A None message, or one of an unknown type, changes nothing and sends nothing. */
  lemma IgnoredMessages(s: SocketState, msg: Option<Message>)
    requires msg.None? || Kind(msg.value).None?
    ensures SocketStep(s, msg) == (s, false)
  {
  }

  /**
   * A control message sends exactly one packet to each client, in order,
   * each the message's trigger and one newline; the clients, and every
   * earlier packet, are unchanged.
   */
  lemma EachClientOneLine(s: SocketState, m: Message)
    requires Kind(m).Some?
    ensures var t := SocketStep(s, Some(m)).0;
      |t.sent| == |s.sent| + |s.connections| && t.sent[..|s.sent|] == s.sent &&
      t.connections == s.connections &&
      forall i :: 0 <= i < |s.connections| ==> t.sent[|s.sent| + i] == Packet(s.connections[i], TriggerOf(m).value + "\n")
  {
    var t := SocketStep(s, Some(m)).0;
    assert t.sent == s.sent + Broadcast(TriggerOf(m).value, s.connections);
  }

  /** START, STOP and SAVE record the message's experiment id; only TERMINATE ends the loop, keeping the old id. */
  lemma ExperimentIdAndExit(s: SocketState, m: Message)
    requires Kind(m).Some?
    ensures var (t, exit) := SocketStep(s, Some(m));
      (exit <==> Kind(m) == Some(TERMINATE)) &&
      (exit ==> t.experimentId == s.experimentId && t.stopListening && t.trigger == Some("terminate")) &&
      (!exit ==> t.experimentId == m.experimentId && t.stopListening == s.stopListening)
  {
  }

  /** After TERMINATE no client is taken on any more. */
  lemma NoClientsAfterTerminate(s: SocketState, connection: nat)
    ensures var t := SocketStep(s, Some(TerminateMessage())).0;
      Accepted(t, connection) == t
  {
  }

  /** With one client, a control message sends it exactly one line. */
  lemma OneClientOneLine(s: SocketState, c: nat, m: Message)
    requires s.connections == [c] && Kind(m).Some?
    ensures var t := SocketStep(s, Some(m)).0;
      t.sent == s.sent + [Packet(c, TriggerOf(m).value + "\n")] && t.connections == [c]
  {
    assert Broadcast(TriggerOf(m).value, [c]) == [Packet(c, TriggerOf(m).value + "\n")];
  }

  /**
   * The scenario of the device's own test, with one client: START and STOP
   * of stimuli "00" and "01" of experiment "test", then TERMINATE, arrive as
   * the five lines the test reads.
   */
  lemma ClientReadsTheTestLines(c: nat)
    ensures var msgs := [Some(StartMessage(VStr("test"), VStr("00"))), Some(StopMessage(VStr("test"), VStr("00"))),
                         Some(StartMessage(VStr("test"), VStr("01"))), Some(StopMessage(VStr("test"), VStr("01"))),
                         Some(TerminateMessage())];
      var (t, exit) := SocketRun(Accepted(Initial(), c), msgs);
      exit &&
      t.sent == [Packet(c, "START-test-00" + "\n"), Packet(c, "STOP-test-00" + "\n"), Packet(c, "START-test-01" + "\n"),
                 Packet(c, "STOP-test-01" + "\n"), Packet(c, "terminate" + "\n")]
  {
    var e := VStr("test");
    var m1, m2, m3, m4, m5 := StartMessage(e, VStr("00")), StopMessage(e, VStr("00")),
                              StartMessage(e, VStr("01")), StopMessage(e, VStr("01")), TerminateMessage();
    TestTriggers();
    var s0 := Accepted(Initial(), c);
    assert s0.sent == [] && s0.connections == [c];
    var s1 := RunOneLine(s0, c, m1, [Some(m2), Some(m3), Some(m4), Some(m5)]);
    assert s1.sent == [Packet(c, "START-test-00" + "\n")];
    var s2 := RunOneLine(s1, c, m2, [Some(m3), Some(m4), Some(m5)]);
    assert s2.sent == s1.sent + [Packet(c, "STOP-test-00" + "\n")];
    var s3 := RunOneLine(s2, c, m3, [Some(m4), Some(m5)]);
    assert s3.sent == s2.sent + [Packet(c, "START-test-01" + "\n")];
    var s4 := RunOneLine(s3, c, m4, [Some(m5)]);
    assert s4.sent == s3.sent + [Packet(c, "STOP-test-01" + "\n")];
    OneClientOneLine(s4, c, m5);
    var s5 := SocketStep(s4, Some(m5)).0;
    assert SocketRun(s4, [Some(m5)]) == (s5, true);
    assert s5.sent == s4.sent + [Packet(c, "terminate" + "\n")];
  }

  /** The triggers of the test's messages. */
  lemma TestTriggers()
    ensures TriggerOf(StartMessage(VStr("test"), VStr("00"))) == Some("START-test-00")
    ensures TriggerOf(StopMessage(VStr("test"), VStr("00"))) == Some("STOP-test-00")
    ensures TriggerOf(StartMessage(VStr("test"), VStr("01"))) == Some("START-test-01")
    ensures TriggerOf(StopMessage(VStr("test"), VStr("01"))) == Some("STOP-test-01")
  {
    TwoDigitTrigger(START, "test", "00");
    assert START + "-" + "test" + "-" + "00" == "START-test-00";
    TwoDigitTrigger(STOP, "test", "00");
    assert STOP + "-" + "test" + "-" + "00" == "STOP-test-00";
    TwoDigitTrigger(START, "test", "01");
    assert START + "-" + "test" + "-" + "01" == "START-test-01";
    TwoDigitTrigger(STOP, "test", "01");
    assert STOP + "-" + "test" + "-" + "01" == "STOP-test-01";
  }

  /** A stimulus id of two characters or more goes into the trigger as it is. */
  lemma TwoDigitTrigger(kind: string, experimentId: string, stimulusId: string)
    requires |stimulusId| >= 2
    ensures Recording.TriggerText(Message(VStr(kind), VNone, VStr(experimentId), VStr(stimulusId))) ==
      kind + "-" + experimentId + "-" + stimulusId
  {
  }

  /** One control message other than TERMINATE, sent to one client, and the run goes on. */
  lemma RunOneLine(s: SocketState, c: nat, m: Message, rest: seq<Option<Message>>) returns (t: SocketState)
    requires s.connections == [c] && Kind(m).Some? && Kind(m) != Some(TERMINATE)
    ensures t == SocketStep(s, Some(m)).0 && t.connections == [c]
    ensures t.sent == s.sent + [Packet(c, TriggerOf(m).value + "\n")]
    ensures SocketRun(s, [Some(m)] + rest) == SocketRun(t, rest)
  {
    OneClientOneLine(s, c, m);
    t := SocketStep(s, Some(m)).0;
    assert ([Some(m)] + rest)[1..] == rest;
  }

  /** The device: the fields `_run` and `_accept_connections` update. */
  class SocketServer {
    var trigger: Option<string>
    var experimentId: Value
    var stopListening: bool
    var connections: seq<nat>
    ghost var sent: seq<Packet>

    ghost function Snap(): SocketState
      reads this
    {
      SocketState(trigger, experimentId, stopListening, connections, sent)
    }

    constructor()
      ensures Snap() == Initial()
    {
      trigger := None;
      experimentId := VNone;
      stopListening := false;
      connections := [];
      sent := [];
    }

    /** One accepted client. */
    method Accept(connection: nat)
      modifies this
      ensures Snap() == Accepted(old(Snap()), connection)
    {
      if !stopListening {
        connections := connections + [connection];
      }
    }

    /** Send the stored trigger, with a newline, to every client in turn. */
    method SendToAll()
      requires trigger.Some?
      modifies this
      ensures Snap() == old(Snap()).(sent := old(sent) + Broadcast(old(trigger).value, connections))
    {
      var i := 0;
      while i < |connections|
        invariant 0 <= i <= |connections|
        invariant trigger == old(trigger) && experimentId == old(experimentId)
        invariant stopListening == old(stopListening) && connections == old(connections)
        invariant sent == old(sent) + Broadcast(trigger.value, connections[..i])
      {
        assert connections[..i + 1] == connections[..i] + [connections[i]];
        assert Broadcast(trigger.value, connections[..i + 1]) ==
               Broadcast(trigger.value, connections[..i]) + [Packet(connections[i], trigger.value + "\n")];
        sent := sent + [Packet(connections[i], trigger.value + "\n")];
        i := i + 1;
      }
      assert connections[..i] == connections;
    }

    /** One message from the queue; `exit` is true when the loop ends. */
    method Handle(msg: Option<Message>) returns (exit: bool)
      modifies this
      ensures (Snap(), exit) == SocketStep(old(Snap()), msg)
    {
      exit := false;
      if msg.None? {
        return;
      }
      var m := msg.value;
      var t := TriggerOf(m);
      if t.None? {
        return;
      }
      if m.msgType == VStr(TERMINATE) {
        trigger := t;
        stopListening := true;
        SendToAll();
        exit := true;
      } else {
        experimentId := m.experimentId;
        trigger := t;
        SendToAll();
      }
    }

    /** `_run`: handle messages until TERMINATE; `consumed` counts the messages taken from the queue. */
    method Run(msgs: seq<Option<Message>>) returns (consumed: nat, exit: bool)
      modifies this
      ensures consumed <= |msgs|
      ensures (Snap(), exit) == SocketRun(old(Snap()), msgs)
      ensures !exit ==> consumed == |msgs|
    {
      consumed := 0;
      exit := false;
      while consumed < |msgs| && !exit
        invariant consumed <= |msgs|
        invariant !exit ==> SocketRun(old(Snap()), msgs) == SocketRun(Snap(), msgs[consumed..])
        invariant exit ==> SocketRun(old(Snap()), msgs) == (Snap(), true)
      {
        ghost var before := Snap();
        exit := Handle(msgs[consumed]);
        assert msgs[consumed..][1..] == msgs[consumed + 1..];
        consumed := consumed + 1;
      }
    }
  }
}
