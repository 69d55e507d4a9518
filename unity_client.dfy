/**
 * The Unity example client (examples/endpoint_unity_example/requestController.cs):
 * three buttons, each posting one JSON message to the device-message
 * endpoint. The body is built by string concatenation; it is read back here
 * with a reader of JSON objects whose members are strings (section 4 of
 * RFC 8259, with the strings of section 7 written without escapes), and the
 * decoded body is handed to the endpoint of `Endpoints`. Unity's web request,
 * the coroutine and the UTF-8 encoding of the body are not modelled; the
 * outcome of a request is a parameter.
 */
module UnityClient {
  import opened Common
  import opened Messages
  import Endpoints

  /** The ids the client sends with START and STOP. */
  const StimulusId: string := "10"
  const ExperimentId: string := "00"

  /** The one endpoint the client posts to: this machine, port 9331. */
  const Host: string := "127.0.0.1"
  const PortText: string := "9331"
  const Url: string := "http://" + Host + ":" + PortText

  /** The port in the URL is the device-message endpoint's default port. */
  lemma UrlPort()
    ensures Url == "http://127.0.0.1:9331"
    ensures AllDigits(PortText) && DigitsValue(PortText) == Endpoints.MessagePort
  {
    assert AllDigits(PortText);
    assert PortText[..3] == "933" && "933"[..2] == "93" && "93"[..1] == "9" && "9"[..0] == [];
    assert DigitsValue("9") == 9;
    assert DigitsValue("93") == 93;
    assert DigitsValue("933") == 933;
  }

  /** The three buttons of the scene. */
  datatype Button = StartStimuli | StopStimuli | TerminateExperiment

  /** The message type each button's listener passes to `Upload`. */
  function TypeOf(b: Button): (t: string)
    ensures t == START <==> b == StartStimuli
    ensures t == STOP <==> b == StopStimuli
    ensures t == TERMINATE <==> b == TerminateExperiment
  {
    match b
    case StartStimuli => "START"
    case StopStimuli => "STOP"
    case TerminateExperiment => "TERMINATE"
  }

  /** Text between double quotes, as it is. */
  function Quoted(s: string): string
  {
    "\"" + s + "\""
  }

  /** `"<key>":"<value>"`, a member whose value is a string. */
  function Field(key: string, value: string): string
  {
    Quoted(key) + ":" + Quoted(value)
  }

  /** The members, separated by commas. */
  function MembersText(fields: seq<(string, string)>): string
    requires fields != []
    decreases |fields|
  {
    if |fields| == 1 then Field(fields[0].0, fields[0].1)
    else Field(fields[0].0, fields[0].1) + "," + MembersText(fields[1..])
  }

  /** An object written member after member, without spaces. */
  function ObjectText(fields: seq<(string, string)>): string
    requires fields != []
  {
    "{" + MembersText(fields) + "}"
  }

  /** The members of the body `Upload` sends for a message type. */
  function BodyFields(msgType: string, experimentId: string, stimulusId: string): (fields: seq<(string, string)>)
    ensures fields != []
  {
    if msgType == "TERMINATE" then [("type", "TERMINATE")]
    else [("type", msgType), ("experiment_id", experimentId), ("stimulus_id", stimulusId)]
  }

  /**
   * The body `Upload` sends: `{"type":"<T>","experiment_id":"<E>","stimulus_id":"<S>"}`,
   * except for TERMINATE, whose body is `{"type":"TERMINATE"}`. Nothing is
   * escaped.
   */
  function Body(msgType: string, experimentId: string, stimulusId: string): string
  {
    ObjectText(BodyFields(msgType, experimentId, stimulusId))
  }

  /** A request as `Upload` builds it. */
  datatype Request = Request(url: string, verb: string, headers: seq<(string, string)>, body: string)

  /** `Upload(type)`: a POST of the body, asking for and declaring JSON. */
  function RequestFor(msgType: string, experimentId: string, stimulusId: string): Request
  {
    Request(Url, "POST", [("Accept", "application/json"), ("Content-Type", "application/json")],
            Body(msgType, experimentId, stimulusId))
  }

  // ---------------------------------------------------------------- reading the body back

  /** Insignificant whitespace (section 2 of RFC 8259). */
  predicate IsJsonSpace(c: char)
  {
    c == ' ' || c == '\t' || c == '\n' || c == '\r'
  }

  /** A character that may stand unescaped in a JSON string (section 7 of RFC 8259). */
  predicate Unescaped(c: char)
  {
    c >= ' ' && c != '"' && c != '\\'
  }

  /** Text that can go between quotes as it is. */
  predicate Plain(s: string)
  {
    forall i :: 0 <= i < |s| ==> Unescaped(s[i])
  }

  /** The text after leading whitespace. */
  function SkipSpace(s: string): (r: string)
    ensures |r| <= |s|
  {
    if s != [] && IsJsonSpace(s[0]) then SkipSpace(s[1..]) else s
  }

  /** The characters of a string up to its closing quote, and the text after it. */
  function StringRest(s: string): (r: Option<(string, string)>)
    ensures r.Some? ==> |r.value.1| < |s|
  {
    if s == [] then None
    else if s[0] == '"' then Some(([], s[1..]))
    else if !Unescaped(s[0]) then None
    else
      var t := StringRest(s[1..]);
      if t.None? then None else Some(([s[0]] + t.value.0, t.value.1))
  }

  /** A string token at the head of the text: its characters and the text after it. */
  function StringToken(s: string): (r: Option<(string, string)>)
    ensures r.Some? ==> |r.value.1| < |s|
  {
    if s == [] || s[0] != '"' then None else StringRest(s[1..])
  }

  /** A member `"key" : "value"` at the head of the text. */
  function MemberAt(s: string): (r: Option<(string, string, string)>)
    ensures r.Some? ==> |r.value.2| < |s|
  {
    var k := StringToken(s);
    if k.None? then None
    else
      var colon := SkipSpace(k.value.1);
      if colon == [] || colon[0] != ':' then None
      else
        var v := StringToken(SkipSpace(colon[1..]));
        if v.None? then None else Some((k.value.0, v.value.0, v.value.1))
  }

  /**
   * The members of an object up to its closing brace, added to `acc`; a key
   * seen twice keeps its last value, as Python's json does.
   */
  function Members(s: string, acc: map<string, string>): Option<(map<string, string>, string)>
    decreases |s|
  {
    var m := MemberAt(s);
    if m.None? then None
    else
      var next := SkipSpace(m.value.2);
      if next != [] && next[0] == ',' then Members(SkipSpace(next[1..]), acc[m.value.0 := m.value.1])
      else if next != [] && next[0] == '}' then Some((acc[m.value.0 := m.value.1], next[1..]))
      else None
  }

  /** The text as one JSON object whose members are strings, or None. */
  function ParseObject(s: string): Option<map<string, string>>
  {
    var t := SkipSpace(s);
    if t == [] || t[0] != '{' then None
    else
      var u := SkipSpace(t[1..]);
      var obj := if u != [] && u[0] == '}' then Some((map[], u[1..])) else Members(u, map[]);
      if obj.None? || SkipSpace(obj.value.1) != [] then None else Some(obj.value.0)
  }

  /** The decoded object as the endpoint's callback receives it. */
  function AsBody(m: map<string, string>): (b: Endpoints.Body)
    ensures b.Keys == m.Keys
    ensures forall k :: k in m ==> b[k] == VStr(m[k])
  {
    map k | k in m :: VStr(m[k])
  }

  /** A quoted plain string reads back as itself. */
  lemma {:induction false} StringRestOf(x: string, rest: string)
    requires Plain(x)
    ensures StringRest(x + "\"" + rest) == Some((x, rest))
  {
    if x == [] {
      assert x + "\"" + rest == "\"" + rest;
    } else {
      assert (x + "\"" + rest)[1..] == x[1..] + "\"" + rest;
      StringRestOf(x[1..], rest);
      assert [x[0]] + x[1..] == x;
    }
  }

  /** A quoted plain string is a string token. */
  lemma QuotedToken(x: string, rest: string)
    requires Plain(x)
    ensures StringToken(Quoted(x) + rest) == Some((x, rest))
  {
    var s := Quoted(x) + rest;
    assert s[0] == '"';
    assert s[1..] == x + "\"" + rest;
    StringRestOf(x, rest);
  }

  /** A member written as `Field` reads back as its key and value. */
  lemma MemberOf(key: string, value: string, rest: string)
    requires Plain(key) && Plain(value)
    ensures MemberAt(Field(key, value) + rest) == Some((key, value, rest))
  {
    var afterKey := ":" + (Quoted(value) + rest);
    assert Field(key, value) + rest == Quoted(key) + afterKey;
    QuotedToken(key, afterKey);
    assert afterKey[0] == ':';
    assert afterKey[1..] == Quoted(value) + rest;
    assert (Quoted(value) + rest)[0] == '"';
    QuotedToken(value, rest);
  }

  /** The last member of an object, then its closing brace. */
  lemma LastMember(key: string, value: string, rest: string, acc: map<string, string>)
    requires Plain(key) && Plain(value)
    ensures Members(Field(key, value) + "}" + rest, acc) == Some((acc[key := value], rest))
  {
    var t := "}" + rest;
    assert Field(key, value) + "}" + rest == Field(key, value) + t;
    MemberOf(key, value, t);
    assert t[0] == '}' && t[1..] == rest;
    assert SkipSpace(t) == t;
  }

  /** A member followed by a comma and more members. */
  lemma NextMember(key: string, value: string, more: string, acc: map<string, string>)
    requires Plain(key) && Plain(value) && more != [] && more[0] == '"'
    ensures Members(Field(key, value) + "," + more, acc) == Members(more, acc[key := value])
  {
    var t := "," + more;
    assert Field(key, value) + "," + more == Field(key, value) + t;
    MemberOf(key, value, t);
    assert t[0] == ',' && t[1..] == more;
    assert SkipSpace(t) == t && SkipSpace(more) == more;
  }

  /** Keys and values that can all be written without escapes. */
  predicate PlainFields(fields: seq<(string, string)>)
  {
    forall i :: 0 <= i < |fields| ==> Plain(fields[i].0) && Plain(fields[i].1)
  }

  /** The object the members make, later keys overriding earlier ones. */
  function Assigned(acc: map<string, string>, fields: seq<(string, string)>): map<string, string>
    decreases |fields|
  {
    if fields == [] then acc else Assigned(acc[fields[0].0 := fields[0].1], fields[1..])
  }

  lemma MembersTextStartsWithQuote(fields: seq<(string, string)>)
    requires fields != []
    ensures MembersText(fields) != [] && MembersText(fields)[0] == '"'
  {
    var f := Field(fields[0].0, fields[0].1);
    assert f[0] == '"';
    if |fields| > 1 {
      assert (f + "," + MembersText(fields[1..]))[0] == f[0];
    }
  }

  /** Members written without escapes read back as the object they make. */
  lemma {:induction false} MembersReadBack(fields: seq<(string, string)>, rest: string, acc: map<string, string>)
    requires fields != [] && PlainFields(fields)
    ensures Members(MembersText(fields) + "}" + rest, acc) == Some((Assigned(acc, fields), rest))
    decreases |fields|
  {
    var (key, value) := fields[0];
    if |fields| == 1 {
      LastMember(key, value, rest, acc);
      assert fields[1..] == [];
    } else {
      var more := MembersText(fields[1..]) + "}" + rest;
      assert MembersText(fields) + "}" + rest == Field(key, value) + "," + more;
      MembersTextStartsWithQuote(fields[1..]);
      assert more[0] == MembersText(fields[1..])[0];
      NextMember(key, value, more, acc);
      MembersReadBack(fields[1..], rest, acc[key := value]);
    }
  }

  /** An object written without escapes reads back as the object its members make. */
  lemma ObjectReadsBack(fields: seq<(string, string)>)
    requires fields != [] && PlainFields(fields)
    ensures ParseObject(ObjectText(fields)) == Some(Assigned(map[], fields))
  {
    var s := ObjectText(fields);
    var inner := MembersText(fields) + "}";
    assert s[0] == '{' && s[1..] == inner;
    MembersTextStartsWithQuote(fields);
    assert inner[0] == MembersText(fields)[0];
    assert SkipSpace(s) == s && SkipSpace(inner) == inner;
    MembersReadBack(fields, "", map[]);
    assert inner == MembersText(fields) + "}" + "";
  }

  /**
   * Read back, the START or STOP body of plain ids holds exactly the type and
   * the two ids, and the TERMINATE body only its type.
   */
  lemma BodyReadsBack(msgType: string, experimentId: string, stimulusId: string)
    requires Plain(msgType) && Plain(experimentId) && Plain(stimulusId)
    ensures msgType != "TERMINATE" ==>
      ParseObject(Body(msgType, experimentId, stimulusId)) ==
        Some(map["type" := msgType, "experiment_id" := experimentId, "stimulus_id" := stimulusId])
    ensures msgType == "TERMINATE" ==> ParseObject(Body(msgType, experimentId, stimulusId)) == Some(map["type" := "TERMINATE"])
  {
    var fields := BodyFields(msgType, experimentId, stimulusId);
    assert Plain("type") && Plain("experiment_id") && Plain("stimulus_id") && Plain("TERMINATE");
    ObjectReadsBack(fields);
    if msgType != "TERMINATE" {
      var m1 := map["type" := msgType];
      var m2 := m1["experiment_id" := experimentId];
      var m3 := m2["stimulus_id" := stimulusId];
      assert Assigned(map[], fields) == Assigned(m1, fields[1..]);
      assert Assigned(m1, fields[1..]) == Assigned(m2, fields[2..]);
      assert Assigned(m2, fields[2..]) == Assigned(m3, fields[3..]);
      assert fields[3..] == [];
      assert m3 == map["type" := msgType, "experiment_id" := experimentId, "stimulus_id" := stimulusId];
    } else {
      assert fields[1..] == [];
    }
  }

  /** A START or STOP body split after its first member. */
  lemma BodyAfterType(msgType: string, experimentId: string, stimulusId: string)
    requires msgType != "TERMINATE"
    ensures var second := Field("experiment_id", experimentId) + ("," + Field("stimulus_id", stimulusId) + "}");
      Body(msgType, experimentId, stimulusId) == "{" + (Field("type", msgType) + "," + second) &&
      second[0] == '"'
  {
    var fields := BodyFields(msgType, experimentId, stimulusId);
    assert fields[1..][1..] == [("stimulus_id", stimulusId)];
    var second := Field("experiment_id", experimentId) + ("," + Field("stimulus_id", stimulusId) + "}");
    assert MembersText(fields[1..]) == Field("experiment_id", experimentId) + "," + Field("stimulus_id", stimulusId);
    assert MembersText(fields) + "}" == Field("type", msgType) + "," + second;
    assert Field("experiment_id", experimentId)[0] == '"';
  }

  /**
   * A value holding a quote ends at that quote; unless a comma, a closing
   * brace or a space follows it, the members cannot be read.
   */
  lemma QuoteEndsValue(key: string, pre: string, post: string, more: string, acc: map<string, string>)
    requires Plain(key) && Plain(pre)
    requires post != [] && !IsJsonSpace(post[0]) && post[0] != ',' && post[0] != '}'
    ensures Members(Field(key, pre + "\"" + post) + more, acc) == None
  {
    var v := pre + "\"" + post;
    var afterKey := ":" + (Quoted(v) + more);
    assert Field(key, v) + more == Quoted(key) + afterKey;
    QuotedToken(key, afterKey);
    assert afterKey[0] == ':';
    var w := afterKey[1..];
    assert w == Quoted(v) + more && w[0] == '"';
    assert w[1..] == pre + "\"" + (post + "\"" + more);
    StringRestOf(pre, post + "\"" + more);
    var next := post + "\"" + more;
    assert next[0] == post[0];
  }

  /**
   * Section 7 of RFC 8259 requires a quote inside a string to be escaped;
   * the client does not escape its ids, so an experiment id with a quote
   * that is not followed by a comma, a brace or a space makes the body
   * unreadable.
   */
  lemma QuoteBreaksBody(msgType: string, pre: string, post: string, stimulusId: string)
    requires msgType != "TERMINATE" && Plain(msgType) && Plain(pre)
    requires post != [] && !IsJsonSpace(post[0]) && post[0] != ',' && post[0] != '}'
    ensures ParseObject(Body(msgType, pre + "\"" + post, stimulusId)) == None
  {
    var v := pre + "\"" + post;
    var second := Field("experiment_id", v) + ("," + Field("stimulus_id", stimulusId) + "}");
    BodyAfterType(msgType, v, stimulusId);
    var inner := Field("type", msgType) + "," + second;
    assert Plain("type") && Plain("experiment_id");
    NextMember("type", msgType, second, map[]);
    QuoteEndsValue("experiment_id", pre, post, "," + Field("stimulus_id", stimulusId) + "}", map["type" := msgType]);
    assert ("{" + inner)[0] == '{' && ("{" + inner)[1..] == inner;
    assert inner[0] == '"';
  }

  /** The id `e","key":"x`: a value that closes itself and opens one more member. */
  function Smuggled(e: string, key: string, x: string): string
  {
    e + "\"," + Quoted(key) + ":\"" + x
  }

  /** Written as a member's value, the smuggled id reads as two members. */
  lemma SmuggledText(key: string, e: string, key2: string, x: string, more: string)
    ensures Field(key, Smuggled(e, key2, x)) + more == Field(key, e) + ("," + (Field(key2, x) + more))
  {
    var q := "\"";
    assert Field(key, Smuggled(e, key2, x)) + more ==
      Quoted(key) + ":" + q + e + q + "," + Quoted(key2) + ":" + q + x + q + more;
  }

  /** The body with a smuggled experiment id is the body of four members. */
  lemma SmuggledBody(msgType: string, e: string, x: string, stimulusId: string)
    requires msgType != "TERMINATE"
    ensures Body(msgType, Smuggled(e, "type", x), stimulusId) ==
      ObjectText([("type", msgType), ("experiment_id", e), ("type", x), ("stimulus_id", stimulusId)])
  {
    var four := [("type", msgType), ("experiment_id", e), ("type", x), ("stimulus_id", stimulusId)];
    var three := BodyFields(msgType, Smuggled(e, "type", x), stimulusId);
    var last := Field("stimulus_id", stimulusId);
    FourMembers(e, x, stimulusId);
    ThreeMembers(Smuggled(e, "type", x), stimulusId);
    assert four[1..] == [("experiment_id", e), ("type", x), ("stimulus_id", stimulusId)];
    assert three[1..] == [("experiment_id", Smuggled(e, "type", x)), ("stimulus_id", stimulusId)];
    SmuggledText("experiment_id", e, "type", x, "," + last);
  }

  lemma FourMembers(e: string, x: string, stimulusId: string)
    ensures MembersText([("experiment_id", e), ("type", x), ("stimulus_id", stimulusId)]) ==
      Field("experiment_id", e) + ("," + (Field("type", x) + ("," + Field("stimulus_id", stimulusId))))
  {
    var fields := [("experiment_id", e), ("type", x), ("stimulus_id", stimulusId)];
    var f1, f2, f3 := Field("experiment_id", e), Field("type", x), Field("stimulus_id", stimulusId);
    assert fields[1..] == [("type", x), ("stimulus_id", stimulusId)];
    assert fields[1..][1..] == [("stimulus_id", stimulusId)];
    assert MembersText(fields[1..]) == f2 + "," + f3;
    assert MembersText(fields) == f1 + "," + (f2 + "," + f3);
    assert f1 + "," + (f2 + "," + f3) == f1 + ("," + (f2 + ("," + f3)));
  }

  lemma ThreeMembers(v: string, stimulusId: string)
    ensures MembersText([("experiment_id", v), ("stimulus_id", stimulusId)]) ==
      Field("experiment_id", v) + ("," + Field("stimulus_id", stimulusId))
  {
    var fields := [("experiment_id", v), ("stimulus_id", stimulusId)];
    assert fields[1..] == [("stimulus_id", stimulusId)];
  }

  lemma SmuggledObject(msgType: string, e: string, x: string, stimulusId: string)
    ensures Assigned(map[], [("type", msgType), ("experiment_id", e), ("type", x), ("stimulus_id", stimulusId)]) ==
      map["type" := x, "experiment_id" := e, "stimulus_id" := stimulusId]
  {
    var fields := [("type", msgType), ("experiment_id", e), ("type", x), ("stimulus_id", stimulusId)];
    var m1 := map["type" := msgType];
    var m2 := m1["experiment_id" := e];
    var m3 := m2["type" := x];
    var m4 := m3["stimulus_id" := stimulusId];
    assert Assigned(map[], fields) == Assigned(m1, fields[1..]);
    assert Assigned(m1, fields[1..]) == Assigned(m2, fields[2..]);
    assert Assigned(m2, fields[2..]) == Assigned(m3, fields[3..]);
    assert Assigned(m3, fields[3..]) == Assigned(m4, fields[4..]);
    assert fields[4..] == [];
  }

  /**
   * The same missing escape lets an id smuggle in a member: the experiment
   * id `e","type":"x` turns the body into one whose type is `x`, since the
   * last "type" member wins.
   */
  lemma QuoteInjectsType(msgType: string, e: string, x: string, stimulusId: string)
    requires msgType != "TERMINATE" && Plain(msgType) && Plain(e) && Plain(x) && Plain(stimulusId)
    ensures ParseObject(Body(msgType, Smuggled(e, "type", x), stimulusId)) ==
      Some(map["type" := x, "experiment_id" := e, "stimulus_id" := stimulusId])
  {
    var fields := [("type", msgType), ("experiment_id", e), ("type", x), ("stimulus_id", stimulusId)];
    SmuggledBody(msgType, e, x, stimulusId);
    assert Plain("type") && Plain("experiment_id") && Plain("stimulus_id");
    assert PlainFields(fields);
    ObjectReadsBack(fields);
    SmuggledObject(msgType, e, x, stimulusId);
  }

  // ---------------------------------------------------------------- what the endpoint makes of it

  /** The object a button's body decodes to. */
  function Fields(b: Button): map<string, string>
  {
    if b == TerminateExperiment then map["type" := TERMINATE]
    else map["type" := TypeOf(b), "experiment_id" := ExperimentId, "stimulus_id" := StimulusId]
  }

  /** Each button's body reads back as the object it stands for. */
  lemma RequestReadsBack(b: Button)
    ensures ParseObject(RequestFor(TypeOf(b), ExperimentId, StimulusId).body) == Some(Fields(b))
  {
    BodyReadsBack(TypeOf(b), ExperimentId, StimulusId);
  }

  /** The message the endpoint dispatches for a button press of the client. */
  function Dispatched(b: Button): (m: Message)
    ensures Kind(m) == Some(TypeOf(b))
  {
    match b
    case StartStimuli => StartMessage(VStr(ExperimentId), VStr(StimulusId))
    case StopStimuli => StopMessage(VStr(ExperimentId), VStr(StimulusId))
    case TerminateExperiment => TerminateMessage()
  }

  /**
   * Every request asks for JSON, which the endpoint then answers in, and
   * carries UnityWebRequest's decimal Content-Length; a body
   * that decodes to what the button stands for passes the endpoint's checks,
   * and the endpoint dispatches exactly the button's message.
   */
  lemma EndpointDispatches(b: Button, length: nat, decode: Endpoints.Encoding -> Result<Endpoints.Body>)
    requires decode(Endpoints.Json) == Ok(AsBody(Fields(b)))
    ensures var r := RequestFor(TypeOf(b), ExperimentId, StimulusId);
      r.verb == "POST" && r.url == Url && ("Accept", "application/json") in r.headers &&
      ParseObject(r.body) == Some(Fields(b))
    ensures Endpoints.DevicePost(Endpoints.ContentLength(Some(IntToString(length))), Some("application/json"), decode) ==
      (Endpoints.Ok200(Endpoints.Json, VStr("message dispatched")), Some(Dispatched(b)))
  {
    PyIntOfIntToString(length);
    RequestReadsBack(b);
    Endpoints.JsonHeader();
    FieldsAccepted(b);
  }

  /** The object a button's body decodes to passes the endpoint's checks and yields the button's message. */
  lemma FieldsAccepted(b: Button)
    ensures Endpoints.PostMessage(AsBody(Fields(b))) == (Endpoints.Returned(VStr("message dispatched")), Some(Dispatched(b)))
  {
    var body := AsBody(Fields(b));
    assert "payload" !in body;
    if b == TerminateExperiment {
      assert "experiment_id" !in body && "stimulus_id" !in body;
    }
  }

  /** Different buttons send different bodies. */
  lemma ButtonsSendDistinctBodies(a: Button, b: Button)
    requires a != b
    ensures RequestFor(TypeOf(a), ExperimentId, StimulusId).body != RequestFor(TypeOf(b), ExperimentId, StimulusId).body
  {
    RequestReadsBack(a);
    RequestReadsBack(b);
    assert Fields(a)["type"] == TypeOf(a) && Fields(b)["type"] == TypeOf(b);
  }

  // ---------------------------------------------------------------- the scene object

  /** What the transport reports once the request is done. */
  datatype Outcome = Success | Failure(error: string)

  /** The lines `Debug.Log` writes for one press: the button, then the outcome. */
  function PressLog(b: Button, outcome: Outcome): (lines: seq<string>)
    ensures |lines| == 2 && lines[0] == TypeOf(b) + " PRESSED"
    ensures lines[1] == (if outcome.Success? then "Form upload complete!" else outcome.error)
  {
    [TypeOf(b) + " PRESSED", if outcome.Success? then "Form upload complete!" else outcome.error]
  }

  class RequestController {
    const experimentId: string
    const stimulusId: string
    /** The requests sent so far, in order. */
    var sent: seq<Request>
    /** The lines logged so far. */
    var log: seq<string>

    constructor ()
      ensures experimentId == ExperimentId && stimulusId == StimulusId
      ensures sent == [] && log == []
    {
      experimentId := ExperimentId;
      stimulusId := StimulusId;
      sent := [];
      log := [];
    }

    /**
     * A button press: the listener logs it and sends one request of the
     * button's type; whatever the outcome, it is logged and not retried.
     */
    method Press(b: Button, transport: Request -> Outcome)
      modifies this
      ensures sent == old(sent) + [RequestFor(TypeOf(b), experimentId, stimulusId)]
      ensures log == old(log) + PressLog(b, transport(RequestFor(TypeOf(b), experimentId, stimulusId)))
    {
      var msgType := TypeOf(b);
      log := log + [msgType + " PRESSED"];
      var jsonData := ObjectText([("type", msgType), ("experiment_id", experimentId), ("stimulus_id", stimulusId)]);
      if msgType == "TERMINATE" {
        jsonData := ObjectText([("type", "TERMINATE")]);
      }
      var request := Request(Url, "POST", [], jsonData);
      request := request.(headers := request.headers + [("Accept", "application/json")]);
      request := request.(headers := request.headers + [("Content-Type", "application/json")]);
      assert request == RequestFor(msgType, experimentId, stimulusId);
      sent := sent + [request];
      var outcome := transport(request);
      if outcome.Failure? {
        log := log + [outcome.error];
      } else {
        log := log + ["Form upload complete!"];
      }
    }
  }
}
