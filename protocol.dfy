/**
 * The shared message layer of src/base.js: the seven message types, the payload each one
 * carries and how it is formatted onto the wire, and `MessageHandler`, the dispatcher that
 * numbers outgoing messages, defers writes until a socket opens, keeps the table of
 * callbacks waiting for an ACK and routes incoming messages to registered handlers.
 */
module Protocol {
  import opened Wrappers
  import opened Values
  import opened Transport

  datatype MessageType = Ack | Error | GetTopicInfoReq | GetTopicInfoRsp | Relay | SignIn | Subscribe

  /** The `type` string a message of type `t` carries on the wire. */
  function TypeName(t: MessageType): string
  {
    match t
    case Ack => "ACK"
    case Error => "ERROR"
    case GetTopicInfoReq => "GET_TOPIC_INFO_REQ"
    case GetTopicInfoRsp => "GET_TOPIC_INFO_RSP"
    case Relay => "RELAY"
    case SignIn => "SIGN_IN"
    case Subscribe => "SUBSCRIBE"
  }

  /** The message type a wire `type` string names, if it names one. */
  function ParseType(name: string): (r: Option<MessageType>)
    ensures forall t :: r == Some(t) <==> TypeName(t) == name
  {
    if name == "ACK" then Some(Ack)
    else if name == "ERROR" then Some(Error)
    else if name == "GET_TOPIC_INFO_REQ" then Some(GetTopicInfoReq)
    else if name == "GET_TOPIC_INFO_RSP" then Some(GetTopicInfoRsp)
    else if name == "RELAY" then Some(Relay)
    else if name == "SIGN_IN" then Some(SignIn)
    else if name == "SUBSCRIBE" then Some(Subscribe)
    else None
  }

  /**
   * A payload, one variant per entry of the formatter table: the arguments `sendMessage`
   * passes for that type. `peers` holds the elements of the subscriber set in insertion
   * order, which is what `Array.from` of a JavaScript `Set` yields.
   */
  datatype Payload =
    | AckPayload(ackMsgId: Option<Json>)
    | ErrorPayload(message: string)
    | TopicInfoRequest(topic: Topic)
    | TopicInfoResponse(topic: Topic, peers: seq<Id>)
    | RelayPayload(from: Id, to: Id, relay: Json)
    | SignInPayload(id: Id)
    | SubscribePayload(id: Id, topic: Topic)

  /** The formatter-table key of a payload. */
  function TypeOf(p: Payload): MessageType
  {
    match p
    case AckPayload(_) => Ack
    case ErrorPayload(_) => Error
    case TopicInfoRequest(_) => GetTopicInfoReq
    case TopicInfoResponse(_, _) => GetTopicInfoRsp
    case RelayPayload(_, _, _) => Relay
    case SignInPayload(_) => SignIn
    case SubscribePayload(_, _) => Subscribe
  }

  /** The property names the formatter for type `t` produces. */
  function FieldNames(t: MessageType): set<string>
  {
    match t
    case Ack => {"ackMsgId"}
    case Error => {"message"}
    case GetTopicInfoReq => {"topic"}
    case GetTopicInfoRsp => {"topic", "peers"}
    case Relay => {"from", "to", "relay"}
    case SignIn => {"id"}
    case Subscribe => {"id", "topic"}
  }

  function IdsToJson(ids: seq<Id>): seq<Json>
  {
    if ids == [] then [] else [IdToJson(ids[0])] + IdsToJson(ids[1..])
  }

  function IdsFromJson(items: seq<Json>): Option<seq<Id>>
  {
    if items == [] then Some([])
    else match (IdFromJson(items[0]), IdsFromJson(items[1..]))
      case (Some(id), Some(rest)) => Some([id] + rest)
      case _ => None
  }

  /** A peer list survives the trip through JSON. */
  lemma {:induction false} IdsRoundTrip(ids: seq<Id>)
    ensures IdsFromJson(IdsToJson(ids)) == Some(ids)
  {
    if ids != [] {
      IdsRoundTrip(ids[1..]);
      assert [ids[0]] + ids[1..] == ids;
    }
  }

  /**
   * `formatPayload(type, args)`: the object the formatter table builds. A property whose
   * value is `undefined` (an ACK for a message that had no `msgId`) is dropped by
   * `JSON.stringify`, so it is absent here.
   */
  function FormatPayload(p: Payload): (j: Json)
    ensures j.JObj?
    ensures j.fields.Keys == FieldNames(TypeOf(p)) - (if p == AckPayload(None) then {"ackMsgId"} else {})
  {
    match p
    case AckPayload(ackMsgId) =>
      JObj(if ackMsgId.Some? then map["ackMsgId" := ackMsgId.value] else map[])
    case ErrorPayload(message) => JObj(map["message" := JStr(message)])
    case TopicInfoRequest(topic) => JObj(map["topic" := JStr(topic)])
    case TopicInfoResponse(topic, peers) =>
      JObj(map["topic" := JStr(topic), "peers" := JArr(IdsToJson(peers))])
    case RelayPayload(from, to, relay) =>
      JObj(map["from" := IdToJson(from), "to" := IdToJson(to), "relay" := relay])
    case SignInPayload(id) => JObj(map["id" := IdToJson(id)])
    case SubscribePayload(id, topic) => JObj(map["id" := IdToJson(id), "topic" := JStr(topic)])
  }

  function StrField(fs: map<string, Json>, key: string): Option<string>
  {
    if key in fs && fs[key].JStr? then Some(fs[key].s) else None
  }

  function IdField(fs: map<string, Json>, key: string): Option<Id>
  {
    if key in fs then IdFromJson(fs[key]) else None
  }

  /**
   * What a receiver reads out of the payload of a message of type `t` (`payload.topic`,
   * `payload.to`, ...). A payload that lacks a property its type needs is malformed.
   */
  function ParsePayload(t: MessageType, j: Json): (r: Option<Payload>)
    ensures r.Some? ==> TypeOf(r.value) == t
    ensures r.Some? ==> j.JObj? && FieldNames(t) - {"ackMsgId"} <= j.fields.Keys
  {
    if !j.JObj? then None
    else
      var fs := j.fields;
      match t
      case Ack => Some(AckPayload(if "ackMsgId" in fs then Some(fs["ackMsgId"]) else None))
      case Error =>
        if StrField(fs, "message").Some? then Some(ErrorPayload(StrField(fs, "message").value)) else None
      case GetTopicInfoReq =>
        if StrField(fs, "topic").Some? then Some(TopicInfoRequest(StrField(fs, "topic").value)) else None
      case GetTopicInfoRsp =>
        if StrField(fs, "topic").Some? && "peers" in fs && fs["peers"].JArr? && IdsFromJson(fs["peers"].items).Some?
        then Some(TopicInfoResponse(StrField(fs, "topic").value, IdsFromJson(fs["peers"].items).value))
        else None
      case Relay =>
        if IdField(fs, "from").Some? && IdField(fs, "to").Some? && "relay" in fs
        then Some(RelayPayload(IdField(fs, "from").value, IdField(fs, "to").value, fs["relay"]))
        else None
      case SignIn =>
        if IdField(fs, "id").Some? then Some(SignInPayload(IdField(fs, "id").value)) else None
      case Subscribe =>
        if IdField(fs, "id").Some? && StrField(fs, "topic").Some?
        then Some(SubscribePayload(IdField(fs, "id").value, StrField(fs, "topic").value))
        else None
  }

  /** Every formatted payload is read back as the payload it was formatted from. */
  lemma PayloadRoundTrip(p: Payload)
    ensures ParsePayload(TypeOf(p), FormatPayload(p)) == Some(p)
  {
    if p.TopicInfoResponse? {
      IdsRoundTrip(p.peers);
    }
  }

  /** A message body: a payload of a known type, or a `type` string no formatter handles. */
  datatype Body = Known(payload: Payload) | Unknown(typeName: string)

  /** A message `{msgId, type, payload}`; `msgId` is absent when the sender gave none. */
  datatype Frame = Frame(msgId: Option<Json>, body: Body)

  /** The `type` string of a body. */
  function BodyTypeName(b: Body): string
  {
    match b
    case Known(p) => TypeName(TypeOf(p))
    case Unknown(name) => name
  }

  /** The message type of a body, if it has one. */
  function BodyType(b: Body): Option<MessageType>
  {
    match b
    case Known(p) => Some(TypeOf(p))
    case Unknown(_) => None
  }

  /** A frame whose unknown `type` string really names no message type. */
  predicate WellFormed(f: Frame)
  {
    f.body.Unknown? ==> ParseType(f.body.typeName).None?
  }

  /** The JSON object `JSON.stringify` is given for a frame. */
  function EncodeFrame(f: Frame): (j: Json)
    ensures j.JObj? && "type" in j.fields
  {
    JObj((if f.msgId.Some? then map["msgId" := f.msgId.value] else map[])
      + map["type" := JStr(BodyTypeName(f.body))]
      + (if f.body.Known? then map["payload" := FormatPayload(f.body.payload)] else map[]))
  }

  /**
   * The `type` of a frame as a string, the way `util.format('%s', ...)` renders it in the
   * "not supported" error: a missing property is `undefined`. Numbers, arrays and objects
   * are not rendered.
   */
  function TypeText(fs: map<string, Json>): (r: Option<string>)
    ensures "type" in fs && fs["type"].JStr? ==> r == Some(fs["type"].s)
    ensures "type" !in fs ==> r == Some("undefined")
    ensures r.Some? && r.value in {"ACK", "ERROR", "GET_TOPIC_INFO_REQ", "GET_TOPIC_INFO_RSP", "RELAY", "SIGN_IN", "SUBSCRIBE"}
      ==> "type" in fs && fs["type"] == JStr(r.value)
  {
    if "type" !in fs then Some("undefined")
    else match fs["type"]
      case JStr(name) => Some(name)
      case JNull => Some("null")
      case JBool(b) => Some(if b then "true" else "false")
      case _ => None
  }

  /**
   * The frame a receiver reads out of a parsed JSON value; `None` when it is malformed. A
   * frame whose `type` is missing or is not a string still reaches the dispatcher, under
   * the name its error text shows. A number, string, boolean or array has no properties:
   * its `type` and `msgId` read as `undefined`. Reading a property of `null` throws.
   */
  function DecodeFrame(j: Json): (r: Option<Frame>)
    ensures r.Some? ==> WellFormed(r.value)
    ensures j.JObj? && "type" !in j.fields ==> r == Some(Frame(if "msgId" in j.fields then Some(j.fields["msgId"]) else None, Unknown("undefined")))
    ensures !j.JObj? ==> (r.None? <==> j.JNull?) && (r.Some? ==> r.value == Frame(None, Unknown("undefined")))
  {
    if j.JNull? then None
    else if !j.JObj? then Some(Frame(None, Unknown("undefined")))
    else if TypeText(j.fields).None? then None
    else
      var fs := j.fields;
      var msgId := if "msgId" in fs then Some(fs["msgId"]) else None;
      var name := TypeText(fs).value;
      match ParseType(name)
      case None => Some(Frame(msgId, Unknown(name)))
      case Some(t) =>
        if "payload" !in fs then None
        else match ParsePayload(t, fs["payload"])
          case None => None
          case Some(p) => Some(Frame(msgId, Known(p)))
  }

  /** Every well-formed frame survives encoding and decoding unchanged. */
  lemma {:induction false} FrameRoundTrip(f: Frame)
    requires WellFormed(f)
    ensures DecodeFrame(EncodeFrame(f)) == Some(f)
  {
    var fs := EncodeFrame(f).fields;
    assert StrField(fs, "type") == Some(BodyTypeName(f.body));
    assert ("msgId" in fs) == f.msgId.Some?;
    assert f.msgId.Some? ==> fs["msgId"] == f.msgId.value;
    match f.body
    case Known(p) =>
      assert ParseType(TypeName(TypeOf(p))) == Some(TypeOf(p));
      assert fs["payload"] == FormatPayload(p);
      PayloadRoundTrip(p);
    case Unknown(name) =>
  }

  /** A message sent by `sendMessage` under id `msgId`. */
  function Numbered(msgId: nat, p: Payload): Frame
  {
    Frame(Some(JNum(msgId)), Known(p))
  }

  /**
   * A callback a caller hands to `sendMessage`. Callbacks are foreign code: the model
   * identifies each by a number and records when it is invoked.
   */
  type Callback = nat

  /** The pending entry an ACK refers to, if its `ackMsgId` is the id of one. */
  function AckedId(pending: map<nat, Callback>, ackMsgId: Option<Json>): Option<nat>
  {
    match ackMsgId
    case Some(JNum(k)) => if k >= 0 && k as nat in pending then Some(k as nat) else None
    case _ => None
  }

  /**
   * An ACK's effect on the pending table: the callbacks it invokes and the table left
   * behind. A callback runs exactly when the ACK names a pending id; then that one entry,
   * and only it, leaves the table, and its callback is the one that runs.
   */
  function ApplyAck(pending: map<nat, Callback>, ackMsgId: Option<Json>): (r: (map<nat, Callback>, seq<Callback>))
    ensures r.1 != [] <==>
      (ackMsgId.Some? && ackMsgId.value.JNum? && ackMsgId.value.n >= 0 && ackMsgId.value.n as nat in pending)
    ensures r.0.Keys <= pending.Keys && |r.1| <= 1 && (r.1 == [] ==> r.0 == pending)
    ensures forall k :: k in r.0 ==> r.0[k] == pending[k]
    ensures forall k :: k in pending && k !in r.0 ==> ackMsgId == Some(JNum(k)) && r.1 == [pending[k]]
    ensures forall k: nat :: ackMsgId == Some(JNum(k)) && k in pending ==> r == (pending - {k}, [pending[k]])
  {
    match AckedId(pending, ackMsgId)
    case Some(k) => (pending - {k}, [pending[k]])
    case None => (pending, [])
  }

  /**
   * The ACK for a message sent with callback `cb` invokes `cb`, exactly once, and leaves
   * the table as it was before the send; the same ACK arriving again changes nothing.
   */
  lemma AckFiresOnce(pending: map<nat, Callback>, msgId: nat, cb: Callback)
    requires msgId !in pending
    ensures ApplyAck(pending[msgId := cb], Some(JNum(msgId))) == (pending, [cb])
    ensures ApplyAck(pending, Some(JNum(msgId))) == (pending, [])
  {
    assert pending[msgId := cb] - {msgId} == pending;
  }

  /** An ACK for an id with no pending entry, or with no usable id, is ignored. */
  lemma AckWithoutEntryIgnored(pending: map<nat, Callback>, ackMsgId: Option<Json>)
    requires forall k: nat :: ackMsgId == Some(JNum(k)) ==> k !in pending
    ensures ApplyAck(pending, ackMsgId) == (pending, [])
  {
  }

  /** What dispatching an incoming message amounts to. */
  datatype Route<H> =
    | Rejected(reason: string)   // the error callback is called with `reason`
    | Acknowledged               // an ACK, handled inside the dispatcher
    | Emit(handlers: seq<H>)     // the handlers registered for the type run, in order

  /**
   * `MessageHandler` (src/base.js:47-119). `H` names the handlers a user registers; the
   * dispatcher only stores and returns them.
   */
  class MessageHandler<H> {
    /** The next message id `_msgIdGen` hands out. */
    var lastMsgId: nat
    /** `_msgIdToCb`: callbacks waiting for the ACK of the message with that id. */
    var pending: map<nat, Callback>
    /** `_supportedMessageTypes`. */
    var supported: set<MessageType>
    /** The listeners `_registerHandler` attached for each type, in registration order. */
    var handlers: map<MessageType, seq<H>>
    /** The ACK callbacks invoked so far, in the order they were invoked. */
    var fired: seq<Callback>

    ghost predicate Valid()
      reads this
    {
      && 1 <= lastMsgId
      && (forall k :: k in pending ==> 1 <= k < lastMsgId)
      && supported == handlers.Keys + {Ack}
      && (forall t :: t in handlers ==> handlers[t] != [])
    }

    /** ACKs are supported from the start, and no id has been used yet. */
    constructor ()
      ensures Valid()
      ensures lastMsgId == 1 && pending == map[] && supported == {Ack}
      ensures handlers == map[] && fired == []
    {
      lastMsgId := 1;
      pending := map[];
      supported := {Ack};
      handlers := map[];
      fired := [];
    }

    /** `_registerHandler(type, handler)`: supports `t` and appends `h` to its listeners. */
    method RegisterHandler(t: MessageType, h: H)
      requires Valid()
      modifies this`supported, this`handlers
      ensures Valid()
      ensures supported == old(supported) + {t}
      ensures handlers == old(handlers)[t := (if t in old(handlers) then old(handlers)[t] else []) + [h]]
    {
      supported := supported + {t};
      handlers := handlers[t := (if t in handlers then handlers[t] else []) + [h]];
    }

    /** `_msgIdGen()`: hands out the current id and advances the counter. */
    method NextMsgId() returns (msgId: nat)
      modifies this`lastMsgId
      ensures msgId == old(lastMsgId) && lastMsgId == msgId + 1
    {
      msgId := lastMsgId;
      lastMsgId := lastMsgId + 1;
    }

    /**
     * `_handleMessage(msg, cb, ...context)`. An unsupported type is rejected and nothing
     * else happens; an ACK settles its pending entry (if any) and goes no further; any
     * other supported type is handed to its listeners.
     */
    method HandleMessage(msg: Frame) returns (r: Route<H>)
      requires Valid()
      modifies this`pending, this`fired
      ensures Valid()
      ensures BodyType(msg.body).None? || BodyType(msg.body).value !in supported ==>
        r == Rejected(NotSupportedText(BodyTypeName(msg.body))) && pending == old(pending) && fired == old(fired)
      ensures BodyType(msg.body) == Some(Ack) ==>
        r == Acknowledged
        && old(fired) <= fired
        && (pending, fired[|old(fired)|..]) == ApplyAck(old(pending), msg.body.payload.ackMsgId)
      ensures BodyType(msg.body).Some? && BodyType(msg.body).value in supported - {Ack} ==>
        r == Emit(handlers[BodyType(msg.body).value]) && pending == old(pending) && fired == old(fired)
    {
      var t := BodyType(msg.body);
      if t.None? || t.value !in supported {
        r := Rejected(NotSupportedText(BodyTypeName(msg.body)));
        return;
      }
      if t.value == Ack {
        var acked := AckedId(pending, msg.body.payload.ackMsgId);
        if acked.Some? {
          fired := fired + [pending[acked.value]];
          pending := pending - {acked.value};
        }
        assert fired[|old(fired)|..] == if acked.Some? then [old(pending)[acked.value]] else [];
        r := Acknowledged;
        return;
      }
      r := Emit(handlers[t.value]);
    }

    /**
     * `sendMessage(ws, type, cb, ...args)`: takes the next id, records `cb` (when given)
     * as waiting for that id's ACK, and writes the numbered message now if the socket is
     * open, or chains the write onto its open handler otherwise.
     */
    method SendMessage(ws: Socket<Frame>, p: Payload, cb: Option<Callback>)
      requires Valid()
      modifies this`lastMsgId, this`pending, ws`sent, ws`onopen
      ensures Valid()
      ensures lastMsgId == old(lastMsgId) + 1
      ensures old(lastMsgId) !in old(pending)
      ensures pending == if cb.Some? then old(pending)[old(lastMsgId) := cb.value] else old(pending)
      ensures ws.state == Open ==>
        ws.sent == old(ws.sent) + [Numbered(old(lastMsgId), p)] && ws.onopen == old(ws.onopen)
      ensures ws.state != Open ==>
        ws.sent == old(ws.sent) && ws.onopen == Then(old(ws.onopen), Numbered(old(lastMsgId), p))
      ensures ws.Outbox() == old(ws.Outbox()) + Accepting(ws.state, [Numbered(old(lastMsgId), p)])
    {
      var msgId := NextMsgId();
      var data := Numbered(msgId, p);
      if cb.Some? {
        pending := pending[msgId := cb.value];
      }
      if ws.state != Open {
        ws.onopen := Then(ws.onopen, data);
      } else {
        ws.Send(data);
      }
    }
  }
}
