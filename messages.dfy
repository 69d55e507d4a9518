// The messages the coordinator broadcasts to devices (octopus_sensing/common):
// a type string, an arbitrary payload and optional experiment and stimulus ids.

module Messages {
  import opened Common

  // MessageType: the four control words every device understands.
  const START: string := "START"
  const STOP: string := "STOP"
  const TERMINATE: string := "TERMINATE"
  const SAVE: string := "SAVE"

  /**
   * A message as Message.__init__ stores it. None of the fields is checked:
   * the type is usually one of the four control words but may be any object.
   */
  datatype Message = Message(msgType: Value, payload: Value, experimentId: Value, stimulusId: Value)

  /** Message(type, payload) with the ids left at their default, None. */
  function NewMessage(msgType: Value, payload: Value): (m: Message)
    ensures m.experimentId == VNone && m.stimulusId == VNone
    ensures m.msgType == msgType && m.payload == payload
  {
    Message(msgType, payload, VNone, VNone)
  }

  /** The control word a message carries, when its type is one of the four. */
  function Kind(m: Message): (k: Option<string>)
    ensures k.Some? <==> m.msgType in {VStr(START), VStr(STOP), VStr(TERMINATE), VStr(SAVE)}
    ensures k.Some? ==> m.msgType == VStr(k.value)
  {
    match m.msgType
    case VStr(s) => if s in {START, STOP, TERMINATE, SAVE} then Some(s) else None
    case _ => None
  }

  function StartMessage(experimentId: Value, stimulusId: Value, payload: Value := VNone): (m: Message)
    ensures Kind(m) == Some(START)
    ensures m.experimentId == experimentId && m.stimulusId == stimulusId && m.payload == payload
  {
    Message(VStr(START), payload, experimentId, stimulusId)
  }

  function StopMessage(experimentId: Value, stimulusId: Value): (m: Message)
    ensures Kind(m) == Some(STOP) && m.payload == VNone
    ensures m.experimentId == experimentId && m.stimulusId == stimulusId
  {
    Message(VStr(STOP), VNone, experimentId, stimulusId)
  }

  /** A save message names the experiment only; its stimulus id stays None. */
  function SaveMessage(experimentId: Value): (m: Message)
    ensures Kind(m) == Some(SAVE) && m.payload == VNone
    ensures m.experimentId == experimentId && m.stimulusId == VNone
  {
    Message(VStr(SAVE), VNone, experimentId, VNone)
  }

  /** A terminate message carries neither payload nor ids. */
  function TerminateMessage(): (m: Message)
    ensures Kind(m) == Some(TERMINATE)
    ensures m.payload == VNone && m.experimentId == VNone && m.stimulusId == VNone
  {
    NewMessage(VStr(TERMINATE), VNone)
  }
}
