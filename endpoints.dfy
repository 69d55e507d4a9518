// The HTTP endpoints (octopus_sensing/common/endpoint_base.py,
// octopus_sensing/device_message_endpoint.py,
// octopus_sensing/realtime_data_endpoint.py): the choice of wire format from
// the Accept header, the status a request is answered with, the validation
// of a posted message and the defaults of a realtime-data query.
//
// The serialisers (pickle, json, msgpack) and the query-string parser are
// foreign: they are parameters. A decoded body is a dictionary from keys to
// values; the socket and the response stream are left out.

module Endpoints {
  import opened Common
  import opened Messages

  /** The three formats a request may be read and answered in. */
  datatype Encoding = Pickle | Json | Msgpack

  /**
   * The format an Accept header selects: pickle when the header is absent or
   * mentions "pickle", then "json", then "msgpack"; any other header selects
   * none.
   */
  function Negotiate(accept: Option<string>): (r: Option<Encoding>)
    ensures r == Some(Pickle) <==> accept.None? || Contains(accept.value, "pickle")
    ensures r.None? <==>
      accept.Some? && !Contains(accept.value, "pickle") && !Contains(accept.value, "json") && !Contains(accept.value, "msgpack")
  {
    if accept.None? || Contains(accept.value, "pickle") then Some(Pickle)
    else if Contains(accept.value, "json") then Some(Json)
    else if Contains(accept.value, "msgpack") then Some(Msgpack)
    else None
  }

  /** A string contains whatever follows a prefix of it. */
  lemma ContainsSuffix(pre: string, s: string, sub: string)
    requires sub <= s
    ensures Contains(pre + s, sub)
  {
    assert (pre + s)[|pre|..|pre| + |sub|] == s[..|sub|];
    assert OccursAt(pre + s, sub, |pre|);
  }

  /** The JSON header of the library's clients selects JSON. */
  lemma JsonHeader()
    ensures Negotiate(Some("application/json")) == Some(Json)
  {
    ContainsSuffix("application/", "json", "json");
    assert "application/" + "json" == "application/json";
    NotContains("application/json", "pickle", 'k');
  }

  /** The msgpack header of the library's tests selects msgpack. */
  lemma MsgpackHeader()
    ensures Negotiate(Some("application/msgpack")) == Some(Msgpack)
  {
    ContainsSuffix("application/", "msgpack", "msgpack");
    assert "application/" + "msgpack" == "application/msgpack";
    NotContains("application/msgpack", "pickle", 'e');
    NotContains("application/msgpack", "json", 'j');
  }

  /** Pickle wins wherever it appears in the header, even after JSON. */
  lemma PickleWins(pre: string)
    ensures Negotiate(Some(pre + "pickle")) == Some(Pickle)
  {
    ContainsSuffix(pre, "pickle", "pickle");
  }

  /** A string that lacks one of the letters of `sub` does not contain it. */
  lemma NotContains(s: string, sub: string, c: char)
    requires c in sub && c !in s
    ensures !Contains(s, sub)
  {
    var j :| 0 <= j < |sub| && sub[j] == c;
    forall i | 0 <= i
      ensures !OccursAt(s, sub, i)
    {
      if i + |sub| <= |s| {
        assert s[i..i + |sub|][j] == s[i + j];
      }
    }
  }

  /** A header that names no known format selects none, so the request is refused. */
  lemma UnknownFormat()
    ensures Negotiate(Some("text")) == None
  {
    NotContains("text", "pickle", 'p');
    NotContains("text", "json", 'j');
    NotContains("text", "msgpack", 'm');
  }

  // ---------------------------------------------------------------- handlers

  /** How a callback finishes: with a response, with EndpointClientError, or with any other exception. */
  datatype CallbackResult = Returned(response: Value) | ClientError(message: string) | Raised(error: string)

  /** What the client sees: 200 with the serialised response, 400 with a message, or a dropped connection. */
  datatype Reply = Ok200(encoding: Encoding, response: Value) | Error400(message: string) | Dropped(error: string)

  type Query = map<string, seq<string>>
  type Body = map<string, Value>

  const NoGet: string := "This endpoint does not support GET requests"
  const NoPost: string := "This endpoint does not support POST requests"
  const UnknownContentType: string := "Unknown content type. Should be one of 'json', 'msgpack', or 'pickle'"

  /** The parameters of a GET: none without a query string, else what `parse_qs` makes of it. */
  function QueryParams(query: string, parseQs: string -> Query): (q: Query)
    ensures query == "" ==> q == map[]
  {
    if query == "" then map[] else parseQs(query)
  }

  /**
   * `do_GET` as written: a missing callback is refused; the callback runs
   * before the Accept header is looked at; an EndpointClientError is
   * reported through its `message` attribute, which Python exceptions do not
   * have, so the handler itself fails and the connection is dropped.
   * Also returns the parameters the callback was called with, if it was.
   */
  function HandleGetAsWritten(get: Option<Query -> CallbackResult>, query: string, parseQs: string -> Query,
                              accept: Option<string>): (Reply, Option<Query>)
  {
    if get.None? then (Error400(NoGet), None)
    else
      var params := QueryParams(query, parseQs);
      var result := get.value(params);
      if result.ClientError? then (Dropped("AttributeError"), Some(params))
      else if result.Raised? then (Dropped(result.error), Some(params))
      else
        var enc := Negotiate(accept);
        if enc.None? then (Error400(UnknownContentType), Some(params))
        else (Ok200(enc.value, result.response), Some(params))
  }

  /** `do_GET` as evidently intended: a client error answers 400 with its text, as `do_POST` does. */
  function HandleGet(get: Option<Query -> CallbackResult>, query: string, parseQs: string -> Query,
                     accept: Option<string>): (Reply, Option<Query>)
  {
    if get.None? then (Error400(NoGet), None)
    else
      var params := QueryParams(query, parseQs);
      var result := get.value(params);
      if result.ClientError? then (Error400(result.message), Some(params))
      else if result.Raised? then (Dropped(result.error), Some(params))
      else
        var enc := Negotiate(accept);
        if enc.None? then (Error400(UnknownContentType), Some(params))
        else (Ok200(enc.value, result.response), Some(params))
  }

  /** As written, a GET callback's client error never reaches the client; corrected, it is a 400 with its message. */
  lemma GetClientErrorDropped(get: Query -> CallbackResult, query: string, parseQs: string -> Query, accept: Option<string>)
    requires get(QueryParams(query, parseQs)).ClientError?
    ensures HandleGetAsWritten(Some(get), query, parseQs, accept).0 == Dropped("AttributeError")
    ensures HandleGet(Some(get), query, parseQs, accept).0 == Error400(get(QueryParams(query, parseQs)).message)
  {
  }

  /**
   * The GET contract: without a callback the answer is 400 and nothing is
   * called; with one, the callback is called exactly once with the parsed
   * query (an empty map when there is none) and the answer is 200 exactly
   * when it returns and the Accept header names a known format, in which the
   * response is then serialised.
   */
  lemma GetContract(get: Option<Query -> CallbackResult>, query: string, parseQs: string -> Query, accept: Option<string>)
    ensures var (reply, called) := HandleGet(get, query, parseQs, accept);
      (get.None? ==> reply == Error400(NoGet) && called.None?) &&
      (get.Some? ==> called == Some(QueryParams(query, parseQs))) &&
      (reply.Ok200? <==> get.Some? && get.value(QueryParams(query, parseQs)).Returned? && Negotiate(accept).Some?) &&
      (reply.Ok200? ==> Some(reply.encoding) == Negotiate(accept) &&
                        reply.response == get.value(QueryParams(query, parseQs)).response)
  {
  }

  /** `int(self.headers.get("Content-Length", "-1"))`: the header's text, or -1 without one. */
  function ContentLength(header: Option<string>): Result<int>
  {
    PyInt(if header.Some? then header.value else "-1")
  }

  /**
   * `do_POST`: a missing callback is refused; a Content-Length that is not an
   * integer raises ValueError before the format is looked at; an unknown
   * format is refused before the body is decoded or the callback runs; an
   * EndpointClientError answers 400 with its text; the response goes back in
   * the format the request was read in. `length` is the request's
   * `ContentLength`, and `decode` the foreign deserialiser of the body read.
   * Also returns the body the callback was called with, if it was.
   */
  function HandlePost(post: Option<Body -> CallbackResult>, length: Result<int>, accept: Option<string>,
                      decode: Encoding -> Result<Body>): (Reply, Option<Body>)
  {
    if post.None? then (Error400(NoPost), None)
    else
      if length.Err? then (Dropped(length.error), None)
      else
        var enc := Negotiate(accept);
        if enc.None? then (Error400(UnknownContentType), None)
        else
          var body := decode(enc.value);
          if body.Err? then (Dropped(body.error), None)
          else
            var result := post.value(body.value);
            if result.ClientError? then (Error400(result.message), Some(body.value))
            else if result.Raised? then (Dropped(result.error), Some(body.value))
            else (Ok200(enc.value, result.response), Some(body.value))
  }

  /**
   * The POST contract: a Content-Length that is not an integer drops the
   * connection whatever the format; the callback runs only with a readable
   * length, a known format and a body that decodes; an unknown format is a
   * 400; a client error is a 400 and never a 200, and a 200 answers in the
   * format the request was read in.
   */
  lemma PostContract(post: Option<Body -> CallbackResult>, length: Result<int>, accept: Option<string>,
                     decode: Encoding -> Result<Body>)
    ensures var (reply, called) := HandlePost(post, length, accept, decode);
      (post.None? ==> reply == Error400(NoPost) && called.None?) &&
      (post.Some? && length.Err? ==> reply == Dropped(length.error) && called.None?) &&
      (post.Some? && length.Ok? && Negotiate(accept).None? ==> reply == Error400(UnknownContentType)) &&
      (Negotiate(accept).None? ==> called.None?) &&
      (called.Some? ==> post.Some? && length.Ok? && Negotiate(accept).Some? &&
                        decode(Negotiate(accept).value) == Ok(called.value)) &&
      (called.Some? && post.value(called.value).ClientError? ==> reply == Error400(post.value(called.value).message)) &&
      (reply.Ok200? ==> called.Some? && Some(reply.encoding) == Negotiate(accept) &&
                        post.value(called.value) == Returned(reply.response))
  {
  }

  /**
   * A Content-Length of "x" raises ValueError before the format is looked
   * at, so a request in an unknown format is dropped rather than refused
   * with 400.
   */
  lemma BadContentLengthDropped(post: Body -> CallbackResult, decode: Encoding -> Result<Body>)
    ensures HandlePost(Some(post), ContentLength(Some("x")), Some("text"), decode) == (Dropped("ValueError"), None)
  {
    NotANumber();
    UnknownFormat();
  }

  // ---------------------------------------------------------------- posting messages

  /** The device-message endpoint's default port. */
  const MessagePort: int := 9331

  /** `dict.get(key, None)`. */
  function Get(body: Body, key: string): (v: Value)
    ensures key in body ==> v == body[key]
    ensures key !in body ==> v == VNone
  {
    if key in body then body[key] else VNone
  }

  const TypeMandatory: string := "'type' field is mandatory in request body"
  /** The client errors for a field of the wrong type name the type the field had. */
  function TypeMustBeStr(got: Value): string
  {
    "'type' must be of type 'str', got '" + ClassText(got) + "'"
  }

  function ExperimentIdMustBeStr(got: Value): string
  {
    "'experiment_id' must be of type 'str', got '" + ClassText(got) + "'"
  }

  function StimulusIdMustBeStr(got: Value): string
  {
    "'stimulus_id' must be of type 'str', got '" + ClassText(got) + "'"
  }

  predicate NoneOrStr(v: Value)
  {
    v.VNone? || v.VStr?
  }

  /**
   * `_post_handler` as written: the third check tests the type a second
   * time instead of the stimulus id, so it can never fail. Returns the
   * callback's result and the message dispatched, if any.
   */
  function PostMessageAsWritten(body: Body): (CallbackResult, Option<Message>)
  {
    if "type" !in body then (ClientError(TypeMandatory), None)
    else
      var t := body["type"];
      var e := Get(body, "experiment_id");
      var k := Get(body, "stimulus_id");
      if !t.VStr? then (ClientError(TypeMustBeStr(t)), None)
      else if !NoneOrStr(e) then (ClientError(ExperimentIdMustBeStr(e)), None)
      else if !NoneOrStr(t) then (ClientError(StimulusIdMustBeStr(k)), None)
      else (Returned(VStr("message dispatched")), Some(Message(t, Get(body, "payload"), e, k)))
  }

  /** `_post_handler` as evidently intended: the stimulus id, like the experiment id, must be None or a string. */
  function PostMessage(body: Body): (r: (CallbackResult, Option<Message>))
    ensures r.1.Some? <==> ("type" in body && body["type"].VStr? &&
                           NoneOrStr(Get(body, "experiment_id")) && NoneOrStr(Get(body, "stimulus_id")))
    ensures r.1.Some? ==> r.0 == Returned(VStr("message dispatched")) &&
                          r.1.value == Message(body["type"], Get(body, "payload"), Get(body, "experiment_id"), Get(body, "stimulus_id"))
    ensures r.1.None? ==> r.0.ClientError?
    ensures "type" !in body ==> r.0 == ClientError(TypeMandatory)
    ensures "type" in body && !body["type"].VStr? ==> r.0 == ClientError(TypeMustBeStr(body["type"]))
    ensures "type" in body && body["type"].VStr? && !NoneOrStr(Get(body, "experiment_id")) ==>
              r.0 == ClientError(ExperimentIdMustBeStr(body["experiment_id"]))
    ensures "type" in body && body["type"].VStr? && NoneOrStr(Get(body, "experiment_id")) && !NoneOrStr(Get(body, "stimulus_id")) ==>
              r.0 == ClientError(StimulusIdMustBeStr(body["stimulus_id"]))
  {
    if "type" !in body then (ClientError(TypeMandatory), None)
    else
      var t := body["type"];
      var e := Get(body, "experiment_id");
      var k := Get(body, "stimulus_id");
      if !t.VStr? then (ClientError(TypeMustBeStr(t)), None)
      else if !NoneOrStr(e) then (ClientError(ExperimentIdMustBeStr(e)), None)
      else if !NoneOrStr(k) then (ClientError(StimulusIdMustBeStr(k)), None)
      else (Returned(VStr("message dispatched")), Some(Message(t, Get(body, "payload"), e, k)))
  }

  /** As written, a numeric stimulus id is dispatched; corrected, it is refused with the stimulus-id error. */
  lemma NumericStimulusIdAccepted()
    ensures var body := map["type" := VStr("START"), "stimulus_id" := VInt(7)];
      PostMessageAsWritten(body) == (Returned(VStr("message dispatched")), Some(Message(VStr("START"), VNone, VNone, VInt(7)))) &&
      PostMessage(body) == (ClientError(StimulusIdMustBeStr(VInt(7))), None)
  {
  }

  /** The two versions agree on every body whose stimulus id is None or a string. */
  lemma PostMessageAgrees(body: Body)
    requires NoneOrStr(Get(body, "stimulus_id"))
    ensures PostMessageAsWritten(body) == PostMessage(body)
  {
  }

  /**
   * The device-message endpoint end to end: the reply, and the message handed
   * to the coordinator for broadcast (at most one per request).
   */
  function DevicePost(length: Result<int>, accept: Option<string>, decode: Encoding -> Result<Body>): (r: (Reply, Option<Message>))
  {
    var (reply, called) := HandlePost(Some(b => PostMessage(b).0), length, accept, decode);
    (reply, if called.Some? then PostMessage(called.value).1 else None)
  }

  /**
   * A request is answered 200 "message dispatched" exactly when one message
   * is dispatched; a body without a type is answered 400 and dispatches
   * nothing.
   */
  lemma DispatchedIffAccepted(length: Result<int>, accept: Option<string>, decode: Encoding -> Result<Body>)
    ensures var (reply, sent) := DevicePost(length, accept, decode);
      (sent.Some? <==> reply.Ok200?) &&
      (reply.Ok200? ==> reply.response == VStr("message dispatched") && Some(reply.encoding) == Negotiate(accept))
    ensures length.Ok? && Negotiate(accept).Some? && decode(Negotiate(accept).value).Ok? &&
            "type" !in decode(Negotiate(accept).value).value ==>
      DevicePost(length, accept, decode) == (Error400(TypeMandatory), None)
  {
  }

  /**
   * The endpoint's own test: type "msg_type" and experiment "123", sent with
   * http.client's decimal Content-Length, become a message with no stimulus
   * id and no payload.
   */
  lemma AcceptsTheTestMessage(length: nat)
    ensures var body := map["type" := VStr("msg_type"), "experiment_id" := VStr("123")];
      DevicePost(ContentLength(Some(IntToString(length))), Some("application/msgpack"), enc => Ok(body)) ==
        (Ok200(Msgpack, VStr("message dispatched")), Some(Message(VStr("msg_type"), VNone, VStr("123"), VNone)))
  {
    var body := map["type" := VStr("msg_type"), "experiment_id" := VStr("123")];
    PyIntOfIntToString(length);
    MsgpackHeader();
    assert "stimulus_id" !in body && "payload" !in body;
    assert PostMessage(body) == (Returned(VStr("message dispatched")), Some(Message(VStr("msg_type"), VNone, VStr("123"), VNone)));
  }

  // ---------------------------------------------------------------- realtime data queries

  /** The realtime-data endpoint's port. */
  const RealtimePort: int := 9330

  /** `query_params.get(key, [default])[0]`. */
  function FirstOr(q: Query, key: string, default: string): (r: Result<string>)
    ensures key !in q ==> r == Ok(default)
    ensures key in q && q[key] != [] ==> r == Ok(q[key][0])
    ensures key in q && q[key] == [] ==> r == Err("IndexError")
  {
    var values := if key in q then q[key] else [default];
    if values == [] then Err("IndexError") else Ok(values[0])
  }

  /**
   * `_get_handler`: the duration (3 when absent, else the first value read
   * by int()) and the device list (None when absent or empty, else the
   * names between commas), as passed to `get_realtime_data`.
   */
  function RealtimeQuery(q: Query): (r: Result<(int, Option<seq<string>>)>)
  {
    var d := FirstOr(q, "duration", "3");
    if d.Err? then Err(d.error)
    else
      var duration := PyInt(d.value);
      if duration.Err? then Err(duration.error)
      else
        var names := FirstOr(q, "device_list", "");
        if names.Err? then Err(names.error)
        else if names.value == "" then Ok((duration.value, None))
        else Ok((duration.value, Some(Split(names.value, ','))))
  }

  /** A request without parameters asks for three seconds of every device. */
  lemma EmptyQueryDefaults()
    ensures RealtimeQuery(map[]) == Ok((3, None))
  {
    assert PyInt("3") == Ok(3) by { PyIntOfIntToString(3); assert IntToString(3) == "3"; }
  }

  /**
   * A duration written in decimal is read back, and the device names come
   * back in order: joined with commas they give the list sent.
   */
  lemma QueryRoundTrip(duration: int, names: string)
    requires names != ""
    ensures var r := RealtimeQuery(map["duration" := [IntToString(duration)], "device_list" := [names]]);
      r.Ok? && r.value.0 == duration && r.value.1.Some? && Join(r.value.1.value, ',') == names
  {
    PyIntOfIntToString(duration);
    JoinSplit(names, ',');
  }

  /** A duration that is not a number fails the callback with ValueError, so the connection is dropped. */
  lemma BadDurationDropped(names: seq<string>, parseQs: string -> Query, query: string, accept: Option<string>)
    requires query != "" && parseQs(query) == map["duration" := ["x"]]
    ensures var get := (q: Query) => var r := RealtimeQuery(q); if r.Ok? then Returned(VNone) else Raised(r.error);
      HandleGet(Some(get), query, parseQs, accept).0 == Dropped("ValueError")
  {
    BadDuration();
  }

  /** The duration "x" is not a number. */
  lemma BadDuration()
    ensures RealtimeQuery(map["duration" := ["x"]]) == Err("ValueError")
  {
    NotANumber();
    assert FirstOr(map["duration" := ["x"]], "duration", "3") == Ok("x");
  }

  lemma NotANumber()
    ensures PyInt("x") == Err("ValueError")
  {
    PyIntOfNonNumber("x");
  }
}
