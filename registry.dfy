/**
 * The topic registry server of src/server.js. It keeps three tables: id to connection,
 * topic to subscriber ids, and id to subscribed topics (the reverse index used to clean up
 * when a connection closes). Every incoming message is first acknowledged and then handed
 * to the handler for its type.
 *
 * The transitions are first stated as functions on a `Tables` value (`BindId`,
 * `SubscribeTo`, `Disconnect`, `Handle`, `Receive`) and proved to keep the tables
 * consistent; the `Server` class then updates its fields in place and is proved to follow
 * those functions.
 */
module Registry {
  import opened Wrappers
  import opened Values
  import opened Transport
  import opened Protocol
  import opened Sets

  /** The three tables of the registry; `C` is the connection type. */
  datatype Tables<C> = Tables(
    idToClient: map<Id, C>,
    topicsToIds: map<Topic, seq<Id>>,
    idToTopics: map<Id, seq<Topic>>)

  function EmptyTables<C>(): Tables<C>
  {
    Tables(map[], map[], map[])
  }

  /**
   * The registry's invariant: the ids with a connection are the ids with a topic list, no
   * list repeats an element, and the two topic tables mirror each other — an id is among a
   * topic's subscribers exactly when the topic is among the id's topics.
   */
  ghost predicate Consistent<C>(t: Tables<C>)
  {
    && t.idToClient.Keys == t.idToTopics.Keys
    && DuplicateFree(t)
    && SubscribersListed(t)
    && TopicsListed(t)
  }

  ghost predicate DuplicateFree<C>(t: Tables<C>)
  {
    && (forall topic :: topic in t.topicsToIds ==> NoDup(t.topicsToIds[topic]))
    && (forall id :: id in t.idToTopics ==> NoDup(t.idToTopics[id]))
  }

  /** Every subscriber of a topic is signed in and lists the topic among its own. */
  ghost predicate SubscribersListed<C>(t: Tables<C>)
  {
    forall topic, id :: topic in t.topicsToIds && id in t.topicsToIds[topic] ==>
      id in t.idToTopics && topic in t.idToTopics[id]
  }

  /** Every topic an id lists exists and lists the id among its subscribers. */
  ghost predicate TopicsListed<C>(t: Tables<C>)
  {
    forall id, topic :: id in t.idToTopics && topic in t.idToTopics[id] ==>
      topic in t.topicsToIds && id in t.topicsToIds[topic]
  }

  lemma EmptyConsistent<C>()
    ensures Consistent(EmptyTables<C>())
  {
  }

  /** A successful SIGN_IN: binds the id to the connection and gives it an empty topic list. */
  function BindId<C>(t: Tables<C>, id: Id, c: C): (r: Tables<C>)
    ensures r.idToClient.Keys == t.idToClient.Keys + {id} && r.idToClient[id] == c
    ensures r.idToTopics.Keys == t.idToTopics.Keys + {id} && r.idToTopics[id] == []
    ensures forall other :: other in t.idToClient && other != id ==> r.idToClient[other] == t.idToClient[other]
    ensures forall other :: other in t.idToTopics && other != id ==> r.idToTopics[other] == t.idToTopics[other]
    ensures r.topicsToIds == t.topicsToIds
  {
    Tables(t.idToClient[id := c], t.topicsToIds, t.idToTopics[id := []])
  }

  lemma BindConsistent<C>(t: Tables<C>, id: Id, c: C)
    requires Consistent(t) && id !in t.idToClient
    ensures Consistent(BindId(t, id, c))
  {
  }

  /** SUBSCRIBE: creates the topic if needed, then adds the id to it and it to the id's topics. */
  function SubscribeTo<C>(t: Tables<C>, id: Id, topic: Topic): (r: Tables<C>)
    requires id in t.idToTopics
    ensures r.idToClient == t.idToClient
    ensures r.topicsToIds.Keys == t.topicsToIds.Keys + {topic} && r.idToTopics.Keys == t.idToTopics.Keys
    ensures id in r.topicsToIds[topic] && topic in r.idToTopics[id]
    ensures topic in t.topicsToIds ==> t.topicsToIds[topic] <= r.topicsToIds[topic]
    ensures t.idToTopics[id] <= r.idToTopics[id]
    ensures forall other :: other in t.topicsToIds && other != topic ==> r.topicsToIds[other] == t.topicsToIds[other]
    ensures forall other :: other in t.idToTopics && other != id ==> r.idToTopics[other] == t.idToTopics[other]
  {
    var ids := if topic in t.topicsToIds then t.topicsToIds[topic] else [];
    Tables(t.idToClient, t.topicsToIds[topic := Add(ids, id)], t.idToTopics[id := Add(t.idToTopics[id], topic)])
  }

  /**
   * SUBSCRIBE keeps the tables consistent, records the subscription on both sides, adds the
   * id after the topic's earlier subscribers, and touches no other topic or id.
   */
  lemma {:induction false} SubscribeConsistent<C>(t: Tables<C>, id: Id, topic: Topic)
    requires Consistent(t) && id in t.idToTopics
    ensures var r := SubscribeTo(t, id, topic);
      && Consistent(r)
      && topic in r.topicsToIds && id in r.topicsToIds[topic] && topic in r.idToTopics[id]
      && (topic in t.topicsToIds ==> t.topicsToIds[topic] <= r.topicsToIds[topic])
      && r.topicsToIds.Keys == t.topicsToIds.Keys + {topic}
      && (forall other :: other in t.topicsToIds && other != topic ==> r.topicsToIds[other] == t.topicsToIds[other])
      && (forall other :: other in t.idToTopics && other != id ==> r.idToTopics[other] == t.idToTopics[other])
  {
    var r := SubscribeTo(t, id, topic);
    forall tp, i | tp in r.topicsToIds && i in r.topicsToIds[tp]
      ensures i in r.idToTopics && tp in r.idToTopics[i]
    {
      if tp != topic || i != id {
        if tp == topic {
          assert i in t.topicsToIds[tp];
        }
      }
    }
  }

  /** Subscribing twice to the same topic is the same as subscribing once. */
  lemma {:induction false} SubscribeIdempotent<C>(t: Tables<C>, id: Id, topic: Topic)
    requires id in t.idToTopics
    ensures SubscribeTo(SubscribeTo(t, id, topic), id, topic) == SubscribeTo(t, id, topic)
  {
    var r := SubscribeTo(t, id, topic);
    assert Add(r.topicsToIds[topic], id) == r.topicsToIds[topic];
    assert Add(r.idToTopics[id], topic) == r.idToTopics[id];
    assert r.topicsToIds[topic := r.topicsToIds[topic]] == r.topicsToIds;
    assert r.idToTopics[id := r.idToTopics[id]] == r.idToTopics;
  }

  /** The subscriber lists with `id` deleted from those of the given topics. */
  function DeletedFrom(topicsToIds: map<Topic, seq<Id>>, id: Id, topics: seq<Topic>): map<Topic, seq<Id>>
  {
    map topic | topic in topicsToIds ::
      if topic in topics then Delete(topicsToIds[topic], id) else topicsToIds[topic]
  }

  /** Deleting from the next topic of a list without repeats updates that topic alone. */
  lemma DeletedFromStep(topicsToIds: map<Topic, seq<Id>>, id: Id, topics: seq<Topic>, k: nat)
    requires NoDup(topics) && k < |topics| && topics[k] in topicsToIds
    ensures DeletedFrom(topicsToIds, id, topics[..k + 1])
      == DeletedFrom(topicsToIds, id, topics[..k])[topics[k] := Delete(topicsToIds[topics[k]], id)]
  {
    assert topics[k] !in topics[..k];
    assert topics[..k + 1] == topics[..k] + [topics[k]];
  }

  /**
   * The close cleanup for an identified connection: the id loses its connection and its
   * topic list, and is deleted from the subscriber list of each topic it had subscribed to.
   * Topics themselves are kept, even when this leaves them without subscribers.
   */
  function Disconnect<C>(t: Tables<C>, id: Id): (r: Tables<C>)
    requires id in t.idToTopics
    ensures r.idToClient.Keys == t.idToClient.Keys - {id} && r.idToTopics.Keys == t.idToTopics.Keys - {id}
    ensures forall other :: other in r.idToClient ==> r.idToClient[other] == t.idToClient[other]
    ensures forall other :: other in r.idToTopics ==> r.idToTopics[other] == t.idToTopics[other]
    ensures r.topicsToIds.Keys == t.topicsToIds.Keys
    ensures forall topic :: topic in t.topicsToIds && topic in t.idToTopics[id] ==>
      r.topicsToIds[topic] == Delete(t.topicsToIds[topic], id)
    ensures forall topic :: topic in t.topicsToIds && topic !in t.idToTopics[id] ==>
      r.topicsToIds[topic] == t.topicsToIds[topic]
  {
    Tables(t.idToClient - {id}, DeletedFrom(t.topicsToIds, id, t.idToTopics[id]), t.idToTopics - {id})
  }

  /** The cleanup keeps the tables consistent. */
  lemma {:induction false} DisconnectConsistent<C>(t: Tables<C>, id: Id)
    requires Consistent(t) && id in t.idToTopics
    ensures Consistent(Disconnect(t, id))
  {
    DisconnectDeletesEverywhere(t, id);
    DisconnectKeepsSubscribersListed(t, id);
    DisconnectKeepsTopicsListed(t, id);
  }

  /**
   * After the cleanup the id is gone from every table and every topic, every topic still
   * exists, the other subscribers keep their order, and the other ids keep their topics.
   */
  lemma {:induction false} DisconnectRemovesId<C>(t: Tables<C>, id: Id)
    requires Consistent(t) && id in t.idToTopics
    ensures var r := Disconnect(t, id);
      && id !in r.idToClient && id !in r.idToTopics
      && r.topicsToIds.Keys == t.topicsToIds.Keys
      && (forall topic :: topic in r.topicsToIds ==> r.topicsToIds[topic] == Delete(t.topicsToIds[topic], id))
      && (forall topic :: topic in r.topicsToIds ==> id !in r.topicsToIds[topic])
      && (forall other :: other in r.idToTopics ==> r.idToTopics[other] == t.idToTopics[other])
  {
    DisconnectDeletesEverywhere(t, id);
  }

  lemma {:induction false} DisconnectKeepsSubscribersListed<C>(t: Tables<C>, id: Id)
    requires SubscribersListed(t) && id in t.idToTopics
    ensures SubscribersListed(Disconnect(t, id))
  {
    var r := Disconnect(t, id);
    forall topic, i | topic in r.topicsToIds && i in r.topicsToIds[topic]
      ensures i in r.idToTopics && topic in r.idToTopics[i]
    {
      SubscriberStaysListed(t, id, topic, i);
    }
  }

  /** One remaining subscriber of one topic still lists that topic after the cleanup. */
  lemma SubscriberStaysListed<C>(t: Tables<C>, id: Id, topic: Topic, i: Id)
    requires SubscribersListed(t) && id in t.idToTopics
    requires topic in Disconnect(t, id).topicsToIds && i in Disconnect(t, id).topicsToIds[topic]
    ensures i in Disconnect(t, id).idToTopics && topic in Disconnect(t, id).idToTopics[i]
  {
    var r := Disconnect(t, id);
    var s := t.topicsToIds[topic];
    if topic in t.idToTopics[id] {
      assert r.topicsToIds[topic] == Delete(s, id);
    } else {
      assert r.topicsToIds[topic] == s;
    }
    assert i in s && i != id;
    assert i in t.idToTopics && topic in t.idToTopics[i];
  }

  lemma {:induction false} DisconnectKeepsTopicsListed<C>(t: Tables<C>, id: Id)
    requires Consistent(t) && id in t.idToTopics
    ensures TopicsListed(Disconnect(t, id))
  {
    var r := Disconnect(t, id);
    DisconnectDeletesEverywhere(t, id);
    forall i, topic | i in r.idToTopics && topic in r.idToTopics[i]
      ensures topic in r.topicsToIds && i in r.topicsToIds[topic]
    {
      assert i in t.topicsToIds[topic];
    }
  }

  /** The cleanup's map comprehension amounts to deleting the id from every topic. */
  lemma {:induction false} DisconnectDeletesEverywhere<C>(t: Tables<C>, id: Id)
    requires Consistent(t) && id in t.idToTopics
    ensures var r := Disconnect(t, id);
      && r.topicsToIds.Keys == t.topicsToIds.Keys
      && DuplicateFree(r)
      && (forall topic :: topic in r.topicsToIds ==> r.topicsToIds[topic] == Delete(t.topicsToIds[topic], id))
  {
    var r := Disconnect(t, id);
    forall topic | topic in r.topicsToIds
      ensures r.topicsToIds[topic] == Delete(t.topicsToIds[topic], id)
    {
      if topic !in t.idToTopics[id] {
        assert id !in t.topicsToIds[topic];
      }
    }
  }

  /** The close handler: nothing for an anonymous connection, the cleanup for an identified one. */
  function Close<C>(t: Tables<C>, wsId: Option<Id>): (r: Tables<C>)
    requires wsId.Some? ==> wsId.value in t.idToTopics
    ensures wsId.None? ==> r == t
    ensures wsId.Some? ==> wsId.value !in r.idToClient && wsId.value !in r.idToTopics
    ensures r.topicsToIds.Keys == t.topicsToIds.Keys
  {
    if wsId.None? then t else Disconnect(t, wsId.value)
  }

  /**
   * The close handler's test as src/server.js:54 writes it, `!ws.id`: it also holds for a
   * connection that signed in under the falsy id 0 or "".
   */
  predicate SkipsCleanupAsWritten(wsId: Option<Id>)
  {
    wsId.None? || !Truthy(wsId.value)
  }

  /** The close handler exactly as written. */
  function CloseAsWritten<C>(t: Tables<C>, wsId: Option<Id>): (r: Tables<C>)
    requires !SkipsCleanupAsWritten(wsId) ==> wsId.value in t.idToTopics
    ensures wsId.Some? && !Truthy(wsId.value) ==> r == t
    ensures wsId.None? || Truthy(wsId.value) ==> r == Close(t, wsId)
  {
    if SkipsCleanupAsWritten(wsId) then t else Disconnect(t, wsId.value)
  }

  /** The handlers the server registers, one per supported type. */
  datatype Handler = OnGetTopicInfoReq | OnRelay | OnSignIn | OnSubscribe

  function ServerHandlers(): map<MessageType, seq<Handler>>
  {
    map[GetTopicInfoReq := [OnGetTopicInfoReq], Relay := [OnRelay], SignIn := [OnSignIn], Subscribe := [OnSubscribe]]
  }

  /** One `sendMessage` call: the connection written to and the payload written. */
  datatype Send<C> = Send(to: C, payload: Payload)

  /** GET_TOPIC_INFO_REQ: the topic's subscribers, or an ERROR if nobody ever subscribed. */
  function TopicInfoReply<C>(t: Tables<C>, topic: Topic): (p: Payload)
    ensures p.TopicInfoResponse? <==> topic in t.topicsToIds
    ensures p.TopicInfoResponse? ==> p.topic == topic && p.peers == t.topicsToIds[topic]
    ensures p.ErrorPayload? ==> p.message == TopicMissingText(topic)
  {
    if topic in t.topicsToIds then TopicInfoResponse(topic, t.topicsToIds[topic])
    else ErrorPayload(TopicMissingText(topic))
  }

  /** What the handler `_handleSubscribe` dereferences: the id of a SUBSCRIBE must be signed in. */
  predicate SubscriberKnown<C>(t: Tables<C>, b: Body)
  {
    b.Known? && b.payload.SubscribePayload? ==> b.payload.id in t.idToTopics
  }

  /**
   * The handler registered for the payload's type, as a function of the tables: the new
   * tables and the messages sent, in order. `ws` is the connection the message came on.
   */
  function Handle<C>(t: Tables<C>, ws: C, p: Payload): (r: (Tables<C>, seq<Send<C>>))
    requires SubscriberKnown(t, Known(p))
    ensures r.0 != t ==> p.SignInPayload? || p.SubscribePayload?
    ensures |r.1| <= 1
    ensures forall s :: s in r.1 && s.to != ws ==>
      p.RelayPayload? && p.to in t.idToClient && s == Send(t.idToClient[p.to], p)
    ensures (r.1 != [] && r.1[0].payload.ErrorPayload?) <==>
      || (p.TopicInfoRequest? && p.topic !in t.topicsToIds)
      || (p.RelayPayload? && p.to !in t.idToClient)
      || (p.SignInPayload? && p.id in t.idToClient)
    ensures p.RelayPayload? && p.to in t.idToClient ==> r.1 == [Send(t.idToClient[p.to], p)]
    ensures p.SignInPayload? && p.id !in t.idToClient ==> r == (BindId(t, p.id, ws), [])
    ensures p.SignInPayload? && p.id in t.idToClient ==> r == (t, [Send(ws, ErrorPayload(AlreadyRegisteredText(p.id)))])
    ensures p.RelayPayload? && p.to !in t.idToClient ==> r == (t, [Send(ws, ErrorPayload(NotOnlineText(p.to)))])
  {
    match p
    case TopicInfoRequest(topic) => (t, [Send(ws, TopicInfoReply(t, topic))])
    case RelayPayload(from, to, relay) =>
      if to in t.idToClient then (t, [Send(t.idToClient[to], p)])
      else (t, [Send(ws, ErrorPayload(NotOnlineText(to)))])
    case SignInPayload(id) =>
      if id in t.idToClient then (t, [Send(ws, ErrorPayload(AlreadyRegisteredText(id)))])
      else (BindId(t, id, ws), [])
    case SubscribePayload(id, topic) => (SubscribeTo(t, id, topic), [])
    case _ => (t, [])  // types with no handler are rejected before a handler is looked up
  }

  /** The types the server accepts: ACK and the four with handlers. */
  function ServerTypes(): set<MessageType>
  {
    ServerHandlers().Keys + {Ack}
  }

  /** The ACK the server sends first for every message that is not itself an ACK. */
  function AckFor<C>(ws: C, msg: Frame): seq<Send<C>>
  {
    if BodyType(msg.body) == Some(Ack) then [] else [Send(ws, AckPayload(msg.msgId))]
  }

  /** How the server's message handler routes `msg`, given the types it supports. */
  function ServerRoute(msg: Frame): Route<Handler>
  {
    var ty := BodyType(msg.body);
    if ty.None? || ty.value !in ServerTypes() then Rejected(NotSupportedText(BodyTypeName(msg.body)))
    else if ty.value == Ack then Acknowledged
    else Emit(ServerHandlers()[ty.value])
  }

  /**
   * `_handleMessage` with the server's error callback (src/server.js:44-49): an ERROR back
   * on the same connection for a type the server does not handle, nothing for an ACK (the
   * server never waits for one), the type's handler otherwise.
   */
  function Dispatch<C>(t: Tables<C>, ws: C, msg: Frame): (r: (Tables<C>, seq<Send<C>>))
    requires WellFormed(msg) && SubscriberKnown(t, msg.body)
    ensures BodyType(msg.body).None? || BodyType(msg.body).value !in ServerTypes() ==>
      r == (t, [Send(ws, ErrorPayload(NotSupportedText(BodyTypeName(msg.body))))])
    ensures BodyType(msg.body) == Some(Ack) ==> r == (t, [])
    ensures BodyType(msg.body).Some? && BodyType(msg.body).value in ServerTypes() - {Ack} ==>
      r == Handle(t, ws, msg.body.payload)
  {
    match ServerRoute(msg)
    case Rejected(reason) => (t, [Send(ws, ErrorPayload(reason))])
    case Acknowledged => (t, [])
    case Emit(_) => Handle(t, ws, msg.body.payload)
  }

  /** The server's `onmessage` (src/server.js:38-49): the ACK, then the dispatch. */
  function Receive<C>(t: Tables<C>, ws: C, msg: Frame): (r: (Tables<C>, seq<Send<C>>))
    requires WellFormed(msg) && SubscriberKnown(t, msg.body)
    ensures BodyType(msg.body) != Some(Ack) <==> |r.1| > 0 && r.1[0] == Send(ws, AckPayload(msg.msgId))
    ensures r.0 == Dispatch(t, ws, msg).0 && r.1[|AckFor(ws, msg)|..] == Dispatch(t, ws, msg).1
    ensures |r.1| <= 2
  {
    var handled := Dispatch(t, ws, msg);
    (handled.0, AckFor(ws, msg) + handled.1)
  }

  /**
   * Every message except an ACK is acknowledged first, to its sender and with its own id,
   * whether or not the server handles its type; a type the server does not handle then
   * gets exactly one ERROR and changes nothing; an ACK gets no reply at all.
   */
  lemma ReceiveAcksFirst<C>(t: Tables<C>, ws: C, msg: Frame)
    requires WellFormed(msg) && SubscriberKnown(t, msg.body)
    ensures var (t', out) := Receive(t, ws, msg);
      && (BodyType(msg.body) != Some(Ack) <==> |out| > 0 && out[0] == Send(ws, AckPayload(msg.msgId)))
      && (BodyType(msg.body) == Some(Ack) ==> t' == t && out == [])
      && (BodyType(msg.body).None? || BodyType(msg.body).value !in ServerTypes() ==>
            t' == t && out == [Send(ws, AckPayload(msg.msgId)), Send(ws, ErrorPayload(NotSupportedText(BodyTypeName(msg.body))))])
  {
  }

  /**
   * Only SIGN_IN and SUBSCRIBE change the tables; every message the server sends goes back
   * to the sender or, for a RELAY, to the connection bound to the recipient's id.
   */
  lemma ReceiveTouches<C>(t: Tables<C>, ws: C, msg: Frame)
    requires WellFormed(msg) && SubscriberKnown(t, msg.body)
    ensures var (t', out) := Receive(t, ws, msg);
      && (t' != t ==> msg.body.Known? && (msg.body.payload.SignInPayload? || msg.body.payload.SubscribePayload?))
      && (forall i :: 0 <= i < |out| && out[i].to != ws ==>
            msg.body.Known? && msg.body.payload.RelayPayload? && msg.body.payload.to in t.idToClient
            && out[i] == Send(t.idToClient[msg.body.payload.to], msg.body.payload))
  {
    var d := Dispatch(t, ws, msg);
    var ack := AckFor(ws, msg);
    assert Receive(t, ws, msg) == (d.0, ack + d.1);
    assert forall s :: s in ack ==> s.to == ws;
    if BodyType(msg.body).Some? && BodyType(msg.body).value in ServerTypes() - {Ack} {
      assert d == Handle(t, ws, msg.body.payload);
    }
    forall i | 0 <= i < |ack + d.1| && (ack + d.1)[i].to != ws
      ensures (ack + d.1)[i] in d.1
    {
      assert (ack + d.1)[i] == d.1[i - |ack|];
    }
  }

  /**
   * A message without a `type`, or one that is not an object at all (apart from `null`),
   * is still acknowledged, and then refused as the type `undefined`; the tables do not
   * change.
   */
  lemma UntypedFrameRefused<C>(t: Tables<C>, ws: C, j: Json)
    requires !j.JNull? && (j.JObj? ==> "type" !in j.fields)
    ensures var f := DecodeFrame(j);
      && f.Some?
      && Receive(t, ws, f.value)
         == (t, [Send(ws, AckPayload(f.value.msgId)), Send(ws, ErrorPayload("The message type `undefined` is not supported"))])
  {
    var f := DecodeFrame(j).value;
    assert f.body == Unknown("undefined");
    var text := NotSupportedText("undefined");
    UndefinedNotSupported();
    var ack, error := Send(ws, AckPayload(f.msgId)), Send(ws, ErrorPayload(text));
    assert AckFor(ws, f) == [ack];
    assert Dispatch(t, ws, f) == (t, [error]);
    assert Receive(t, ws, f) == (t, [ack] + [error]);
    TwoInARow(ack, error);
  }

  /** The error text for a frame without a `type`. */
  lemma UndefinedNotSupported()
    ensures NotSupportedText("undefined") == "The message type `undefined` is not supported"
  {
  }

  /** Two writes in turn are the two-element sequence. */
  lemma TwoInARow<T>(a: T, b: T)
    ensures [a] + [b] == [a, b]
  {
  }

  /** Every message the server receives keeps its tables consistent. */
  lemma {:induction false} ReceivePreservesConsistency<C>(t: Tables<C>, ws: C, msg: Frame)
    requires Consistent(t) && WellFormed(msg) && SubscriberKnown(t, msg.body)
    ensures Consistent(Receive(t, ws, msg).0)
  {
    if msg.body.Known? && BodyType(msg.body).value in ServerTypes() {
      match msg.body.payload
      case SignInPayload(id) =>
        if id !in t.idToClient {
          BindConsistent(t, id, ws);
        }
      case SubscribePayload(id, topic) =>
        SubscribeConsistent(t, id, topic);
      case _ =>
    }
  }

  /**
   * The frames a sequence of sends puts on connection `s`, given that the first send takes
   * message id `n` and each later one the next id.
   */
  function FramesFor<C(==)>(sends: seq<Send<C>>, s: C, n: nat): seq<Frame>
    decreases |sends|
  {
    if sends == [] then []
    else
      var k := |sends| - 1;
      FramesFor(sends[..k], s, n) + (if sends[k].to == s then [Numbered(n + k, sends[k].payload)] else [])
  }

  /** Sends performed one batch after another number and deliver like one batch. */
  lemma {:induction false} FramesForConcat<C>(a: seq<Send<C>>, b: seq<Send<C>>, s: C, n: nat)
    ensures FramesFor(a + b, s, n) == FramesFor(a, s, n) + FramesFor(b, s, n + |a|)
    decreases |b|
  {
    if b == [] {
      assert a + b == a;
    } else {
      var k := |b| - 1;
      FramesForConcat(a, b[..k], s, n);
      assert (a + b)[..|a| + k] == a + b[..k];
    }
  }

  /** What each connection carries: its ready state and its outbox. */
  type Outboxes = map<Socket<Frame>, (ReadyState, seq<Frame>)>

  /**
   * `after` is `before` once the sends `sends`, numbered from `n`, are performed: each
   * connection keeps its state and gets the frames addressed to it, if it still accepts
   * frames.
   */
  ghost predicate Grew(before: Outboxes, after: Outboxes, sends: seq<Send<Socket<Frame>>>, n: nat)
  {
    && after.Keys == before.Keys
    && forall s :: s in before ==>
         after[s] == (before[s].0, before[s].1 + Accepting(before[s].0, FramesFor(sends, s, n)))
  }

  /** Sending nothing changes nothing. */
  lemma GrewByNothing(m: Outboxes, n: nat)
    ensures Grew(m, m, [], n)
  {
    forall s | s in m
      ensures m[s] == (m[s].0, m[s].1 + Accepting(m[s].0, FramesFor([], s, n)))
    {
      assert m[s].1 + [] == m[s].1;
    }
  }

  /** Two batches of sends performed one after the other deliver like the one batch. */
  lemma GrewInTurn(m0: Outboxes, m1: Outboxes, m2: Outboxes, a: seq<Send<Socket<Frame>>>, b: seq<Send<Socket<Frame>>>,
                   n: nat, n': nat)
    requires n' == n + |a|
    requires Grew(m0, m1, a, n) && Grew(m1, m2, b, n')
    ensures Grew(m0, m2, a + b, n)
  {
    forall s | s in m0
      ensures m2[s] == (m0[s].0, m0[s].1 + Accepting(m0[s].0, FramesFor(a + b, s, n)))
    {
      FramesForConcat(a, b, s, n);
      var (state, box) := m0[s];
      var first, second := Accepting(state, FramesFor(a, s, n)), Accepting(state, FramesFor(b, s, n + |a|));
      assert Accepting(state, FramesFor(a + b, s, n)) == first + second;
      assert m1[s] == (state, box + first);
      assert m2[s] == (state, (box + first) + second);
      assert (box + first) + second == box + (first + second);
    }
  }

  /** An accepted SIGN_IN: the ACK, then the binding, and no other reply. */
  lemma ReceiveSignIn<C>(t: Tables<C>, ws: C, msgId: Option<Json>, id: Id)
    requires id !in t.idToClient
    ensures Receive(t, ws, Frame(msgId, Known(SignInPayload(id)))) == (BindId(t, id, ws), [Send(ws, AckPayload(msgId))])
  {
    var ack := [Send(ws, AckPayload(msgId))];
    assert ack + [] == ack;
  }

  /** A SUBSCRIBE from a signed-in id: the ACK, then the subscription, and no other reply. */
  lemma ReceiveSubscribe<C>(t: Tables<C>, ws: C, msgId: Option<Json>, id: Id, topic: Topic)
    requires id in t.idToTopics
    ensures Receive(t, ws, Frame(msgId, Known(SubscribePayload(id, topic))))
      == (SubscribeTo(t, id, topic), [Send(ws, AckPayload(msgId))])
  {
    var msg := Frame(msgId, Known(SubscribePayload(id, topic)));
    var ack := [Send(ws, AckPayload(msgId))];
    assert AckFor(ws, msg) == ack;
    assert Dispatch(t, ws, msg) == Handle(t, ws, msg.body.payload) == (SubscribeTo(t, id, topic), []);
    assert ack + [] == ack;
  }

  /** A GET_TOPIC_INFO_REQ: the ACK, then the reply, and the tables unchanged. */
  lemma ReceiveTopicInfo<C>(t: Tables<C>, ws: C, msgId: Option<Json>, topic: Topic)
    ensures Receive(t, ws, Frame(msgId, Known(TopicInfoRequest(topic))))
      == (t, [Send(ws, AckPayload(msgId)), Send(ws, TopicInfoReply(t, topic))])
  {
    var ack, reply := Send(ws, AckPayload(msgId)), Send(ws, TopicInfoReply(t, topic));
    assert [ack] + [reply] == [ack, reply];
  }

  /**
   * The two topic queries of the test suite (test/test.js:40-77), along one run: clients
   * 1 and 2 sign in and client 1 subscribes to "foo"; asked then, the server lists [1]
   * (TOPIC_INFO_SIMPLE). Client 2 then subscribes, and when client 1 asks again the server
   * lists [1, 2] (TOPIC_INFO_TWO_CLIENTS). Each client numbers its messages from 1, and
   * client 1's query is its third message in either test.
   */
  lemma TopicInfoScenario<C>(c1: C, c2: C)
    ensures var t1 := BindId(EmptyTables<C>(), Num(1), c1);
      var t2 := BindId(t1, Num(2), c2);
      var t3 := SubscribeTo(t2, Num(1), "foo");
      var t4 := SubscribeTo(t3, Num(2), "foo");
      && Receive(EmptyTables<C>(), c1, Frame(Some(JNum(1)), Known(SignInPayload(Num(1)))))
         == (t1, [Send(c1, AckPayload(Some(JNum(1))))])
      && Receive(t1, c2, Frame(Some(JNum(1)), Known(SignInPayload(Num(2)))))
         == (t2, [Send(c2, AckPayload(Some(JNum(1))))])
      && Receive(t2, c1, Frame(Some(JNum(2)), Known(SubscribePayload(Num(1), "foo"))))
         == (t3, [Send(c1, AckPayload(Some(JNum(2))))])
      && Receive(t3, c1, Frame(Some(JNum(3)), Known(TopicInfoRequest("foo"))))
         == (t3, [Send(c1, AckPayload(Some(JNum(3)))), Send(c1, TopicInfoResponse("foo", [Num(1)]))])
      && Receive(t3, c2, Frame(Some(JNum(2)), Known(SubscribePayload(Num(2), "foo"))))
         == (t4, [Send(c2, AckPayload(Some(JNum(2))))])
      && Receive(t4, c1, Frame(Some(JNum(3)), Known(TopicInfoRequest("foo"))))
         == (t4, [Send(c1, AckPayload(Some(JNum(3)))), Send(c1, TopicInfoResponse("foo", [Num(1), Num(2)]))])
  {
    var t1 := BindId(EmptyTables<C>(), Num(1), c1);
    ReceiveSignIn(EmptyTables<C>(), c1, Some(JNum(1)), Num(1));
    var t2 := BindId(t1, Num(2), c2);
    ReceiveSignIn(t1, c2, Some(JNum(1)), Num(2));
    var t3 := SubscribeTo(t2, Num(1), "foo");
    ReceiveSubscribe(t2, c1, Some(JNum(2)), Num(1), "foo");
    assert t3.topicsToIds["foo"] == [Num(1)];
    ReceiveTopicInfo(t3, c1, Some(JNum(3)), "foo");
    var t4 := SubscribeTo(t3, Num(2), "foo");
    ReceiveSubscribe(t3, c2, Some(JNum(2)), Num(2), "foo");
    assert t4.topicsToIds["foo"] == Add([Num(1)], Num(2));
    SecondSubscriberGoesLast();
    ReceiveTopicInfo(t4, c1, Some(JNum(3)), "foo");
  }

  /** A new subscriber goes after the existing one. */
  lemma SecondSubscriberGoesLast()
    ensures Add([Num(1)], Num(2)) == [Num(1), Num(2)]
  {
    assert [Num(1)] + [Num(2)] == [Num(1), Num(2)];
  }

  /** After the close cleanup the id is free again: a new SIGN_IN under it succeeds. */
  lemma {:induction false} CloseReleasesId<C>(t: Tables<C>, id: Id, c: C)
    requires Consistent(t) && id in t.idToTopics
    ensures var t' := Close(t, Some(id));
      && Consistent(t')
      && Handle(t', c, SignInPayload(id)) == (BindId(t', id, c), [])
  {
    DisconnectConsistent(t, id);
  }

  /**
   * The close handler as written keeps a connection signed in under the id 0 bound after
   * it closes, so nobody can sign in under 0 again; the corrected handler frees the id.
   */
  lemma FalsyIdSurvivesCloseAsWritten<C>(c: C, other: C)
    ensures var t := BindId(EmptyTables<C>(), Num(0), c);
      && CloseAsWritten(t, Some(Num(0))) == t
      && Handle(CloseAsWritten(t, Some(Num(0))), other, SignInPayload(Num(0))).1
         == [Send(other, ErrorPayload(AlreadyRegisteredText(Num(0))))]
      && Num(0) !in Close(t, Some(Num(0))).idToClient
      && Handle(Close(t, Some(Num(0))), other, SignInPayload(Num(0))).1 == []
  {
  }

  /** What `_handleSignIn` asserts about the connection: an accepted SIGN_IN comes from one without an id. */
  predicate SignInAllowed<C>(t: Tables<C>, wsId: Option<Id>, b: Body)
  {
    b.Known? && b.payload.SignInPayload? && b.payload.id !in t.idToClient ==> wsId.None?
  }

  /**
   * An id is bound to an open connection exactly when that connection carries the id:
   * `_idToClient` maps each id to the connection that signed in under it.
   */
  ghost predicate IdsBound(idToClient: map<Id, Socket<Frame>>, clients: set<Socket<Frame>>)
    reads clients`id
  {
    && (forall i :: i in idToClient ==> idToClient[i] in clients && idToClient[i].id == Some(i))
    && (forall ws :: ws in clients && ws.id.Some? ==> ws.id.value in idToClient && idToClient[ws.id.value] == ws)
  }

  /** A connection that leaves, its id unbound, leaves the others bound as they were. */
  lemma UnbindKeepsIdsBound(idToClient: map<Id, Socket<Frame>>, clients: set<Socket<Frame>>, ws: Socket<Frame>)
    requires IdsBound(idToClient, clients) && ws in clients
    ensures ws.id.Some? ==> IdsBound(idToClient - {ws.id.value}, clients - {ws})
    ensures ws.id.None? ==> IdsBound(idToClient, clients - {ws})
  {
  }

  /** The topic registry server of src/server.js. */
  class Server {
    /** The message handler the server extends: ids, pending ACKs and registered handlers. */
    const dispatcher: MessageHandler<Handler>
    /** `_idToClient`. */
    var idToClient: map<Id, Socket<Frame>>
    /** `_topicsToIds`. */
    var topicsToIds: map<Topic, seq<Id>>
    /** `_idToTopics`. */
    var idToTopics: map<Id, seq<Topic>>
    /** The connections accepted and not yet closed. */
    ghost var clients: set<Socket<Frame>>

    function State(): Tables<Socket<Frame>>
      reads this
    {
      Tables(idToClient, topicsToIds, idToTopics)
    }

    /**
     * The four handlers are registered and nothing waits for an ACK; the tables are
     * consistent; an id is bound to an open connection exactly when that connection
     * carries the id.
     */
    ghost predicate Valid()
      reads this, dispatcher, clients`id
    {
      && dispatcher.Valid()
      && dispatcher.handlers == ServerHandlers()
      && dispatcher.pending == map[]
      && Consistent(State())
      && IdsBound(idToClient, clients)
    }

    /** The state and outbox of each of `sockets`. */
    ghost function OutboxesOf(sockets: set<Socket<Frame>>): (r: Outboxes)
      reads sockets`state, sockets`sent, sockets`onopen
      ensures r.Keys == sockets
    {
      map s | s in sockets :: (s.state, s.Outbox())
    }

    /**
     * The server performed `sends`, in order: each took the next message id, and each of
     * `sockets` keeps its state and now carries the frames addressed to it after what it
     * carried before.
     */
    twostate predicate Delivered(new sends: seq<Send<Socket<Frame>>>, sockets: set<Socket<Frame>>)
      reads dispatcher, sockets
    {
      && dispatcher.lastMsgId == old(dispatcher.lastMsgId) + |sends|
      && Grew(old(OutboxesOf(sockets)), OutboxesOf(sockets), sends, old(dispatcher.lastMsgId))
    }

    /** Empty tables and the four handlers, registered in the order of src/server.js:31-34. */
    constructor ()
      ensures Valid() && fresh(dispatcher)
      ensures State() == EmptyTables() && clients == {}
    {
      var d := new MessageHandler<Handler>();
      d.RegisterHandler(GetTopicInfoReq, OnGetTopicInfoReq);
      d.RegisterHandler(Relay, OnRelay);
      d.RegisterHandler(SignIn, OnSignIn);
      d.RegisterHandler(Subscribe, OnSubscribe);
      assert d.handlers.Keys == ServerHandlers().Keys;
      assert d.handlers[GetTopicInfoReq] == [OnGetTopicInfoReq];
      assert d.handlers[Relay] == [OnRelay];
      assert d.handlers[SignIn] == [OnSignIn];
      assert d.handlers[Subscribe] == [OnSubscribe];
      dispatcher := d;
      idToClient := map[];
      topicsToIds := map[];
      idToTopics := map[];
      clients := {};
    }

    /** The `connection` event: a new connection, not signed in. */
    method Connect(ws: Socket<Frame>)
      requires Valid() && ws !in clients && ws.id == None
      modifies this`clients
      ensures Valid() && clients == old(clients) + {ws}
    {
      clients := clients + {ws};
    }

    /** One `sendMessage` of the server; the server never waits for an ACK. */
    method Deliver(to: Socket<Frame>, p: Payload)
      requires Valid() && to in clients
      modifies dispatcher`lastMsgId, dispatcher`pending, to`sent, to`onopen
      ensures Valid()
      ensures Delivered([Send(to, p)], old(clients))
    {
      dispatcher.SendMessage(to, p, None);
      ghost var n := old(dispatcher.lastMsgId);
      forall s | s in clients
        ensures OutboxesOf(clients)[s]
          == (old(s.state), old(s.Outbox()) + Accepting(old(s.state), FramesFor([Send(to, p)], s, n)))
      {
        assert [Send(to, p)][..0] == [];
        assert OutboxesOf(clients)[s] == (s.state, s.Outbox());
        if s != to {
          assert FramesFor([Send(to, p)], s, n) == [];
          assert s.Outbox() == old(s.Outbox()) + [];
        } else {
          assert FramesFor([Send(to, p)], s, n) == [Numbered(n, p)];
        }
      }
    }

    /** `_handleGetTopicInfoReq`: the topic's subscribers, or an ERROR. */
    method HandleGetTopicInfoReq(ws: Socket<Frame>, topic: Topic)
      requires Valid() && ws in clients
      modifies dispatcher`lastMsgId, dispatcher`pending, ws`sent, ws`onopen
      ensures Valid()
      ensures State() == Handle(old(State()), ws, TopicInfoRequest(topic)).0
      ensures Delivered(Handle(old(State()), ws, TopicInfoRequest(topic)).1, old(clients))
    {
      Deliver(ws, TopicInfoReply(State(), topic));
    }

    /** `_handleRelay`: forwards the payload to the recipient's connection, or an ERROR. */
    method HandleRelay(ws: Socket<Frame>, from: Id, to: Id, relay: Json)
      requires Valid() && ws in clients
      modifies dispatcher`lastMsgId, dispatcher`pending, clients`sent, clients`onopen
      ensures Valid()
      ensures State() == Handle(old(State()), ws, RelayPayload(from, to, relay)).0
      ensures Delivered(Handle(old(State()), ws, RelayPayload(from, to, relay)).1, old(clients))
    {
      if to !in idToClient {
        Deliver(ws, ErrorPayload(NotOnlineText(to)));
        return;
      }
      Deliver(idToClient[to], RelayPayload(from, to, relay));
    }

    /** `_handleSignIn`: binds the id to the connection, or an ERROR if the id is taken. */
    method HandleSignIn(ws: Socket<Frame>, id: Id)
      requires Valid() && ws in clients
      requires id !in idToClient ==> ws.id.None?
      modifies this`idToClient, this`idToTopics, dispatcher`lastMsgId, dispatcher`pending, ws`sent, ws`onopen, ws`id
      ensures Valid()
      ensures State() == Handle(old(State()), ws, SignInPayload(id)).0
      ensures Delivered(Handle(old(State()), ws, SignInPayload(id)).1, old(clients))
    {
      if id in idToClient {
        Deliver(ws, ErrorPayload(AlreadyRegisteredText(id)));
        return;
      }
      Bind(ws, id);
      GrewByNothing(OutboxesOf(clients), dispatcher.lastMsgId);
    }

    /** Binds `id` to the connection `ws`, which carries no id yet, with no topics. */
    method Bind(ws: Socket<Frame>, id: Id)
      requires Valid() && ws in clients && id !in idToClient && ws.id.None?
      modifies this`idToClient, this`idToTopics, ws`id
      ensures Valid() && State() == BindId(old(State()), id, ws)
      ensures OutboxesOf(clients) == old(OutboxesOf(clients))
    {
      ghost var target := BindId(State(), id, ws);
      BindConsistent(State(), id, ws);
      Attach(ws, id);
      idToTopics := idToTopics[id := []];
      assert State() == target;
    }

    /** Records `ws` under `id` in the lookup table and on the connection itself. */
    method Attach(ws: Socket<Frame>, id: Id)
      requires IdsBound(idToClient, clients) && ws in clients && id !in idToClient && ws.id.None?
      modifies this`idToClient, ws`id
      ensures IdsBound(idToClient, clients)
      ensures idToClient == old(idToClient)[id := ws] && ws.id == Some(id)
      ensures OutboxesOf(clients) == old(OutboxesOf(clients))
    {
      idToClient := idToClient[id := ws];
      ws.id := Some(id);
      forall i | i in idToClient
        ensures idToClient[i] in clients && idToClient[i].id == Some(i)
      {
        if i != id {
          assert old(idToClient[i]).id == Some(i);
        }
      }
    }

    /** `_handleSubscribe`: records the subscription in both directions. */
    method HandleSubscribe(id: Id, topic: Topic)
      requires Valid() && id in idToTopics
      modifies this`topicsToIds, this`idToTopics
      ensures Valid()
      ensures State() == SubscribeTo(old(State()), id, topic)
    {
      ghost var target := SubscribeTo(State(), id, topic);
      SubscribeConsistent(State(), id, topic);
      var ids := if topic in topicsToIds then topicsToIds[topic] else [];
      topicsToIds := topicsToIds[topic := Add(ids, id)];
      idToTopics := idToTopics[id := Add(idToTopics[id], topic)];
      assert State() == target;
    }

    /** `_handleMessage` with the server's error callback and listeners. */
    method HandleIncoming(ws: Socket<Frame>, msg: Frame) returns (ghost sends: seq<Send<Socket<Frame>>>)
      requires Valid() && ws in clients
      requires WellFormed(msg) && SubscriberKnown(State(), msg.body) && SignInAllowed(State(), ws.id, msg.body)
      modifies this`idToClient, this`topicsToIds, this`idToTopics
      modifies dispatcher`lastMsgId, dispatcher`pending, dispatcher`fired, clients`sent, clients`onopen, ws`id
      ensures Valid()
      ensures (State(), sends) == Dispatch(old(State()), ws, msg)
      ensures Delivered(sends, old(clients))
    {
      sends := Dispatch(State(), ws, msg).1;
      var route := Route(msg);
      Respond(route, ws, msg);
    }

    /** The message handler's routing of `msg`; an ACK finds nothing pending. */
    method Route(msg: Frame) returns (route: Route<Handler>)
      requires Valid()
      modifies dispatcher`pending, dispatcher`fired
      ensures Valid() && route == ServerRoute(msg)
      ensures OutboxesOf(clients) == old(OutboxesOf(clients))
    {
      route := dispatcher.HandleMessage(msg);
    }

    /**
     * What `_handleMessage` goes on to do once it has routed `msg`: call the server's error
     * callback, settle an ACK (there is never one pending), or run the type's listener.
     */
    method Respond(route: Route<Handler>, ws: Socket<Frame>, msg: Frame)
      requires Valid() && ws in clients && route == ServerRoute(msg)
      requires WellFormed(msg) && SubscriberKnown(State(), msg.body) && SignInAllowed(State(), ws.id, msg.body)
      modifies this`idToClient, this`topicsToIds, this`idToTopics
      modifies dispatcher`lastMsgId, dispatcher`pending, clients`sent, clients`onopen, ws`id
      ensures Valid()
      ensures State() == Dispatch(old(State()), ws, msg).0
      ensures Delivered(Dispatch(old(State()), ws, msg).1, old(clients))
    {
      match route {
        case Rejected(reason) =>
          Deliver(ws, ErrorPayload(reason));
        case Acknowledged =>
          GrewByNothing(OutboxesOf(clients), dispatcher.lastMsgId);
        case Emit(hs) =>
          // every supported type has exactly the one listener the constructor registered
          assert BodyType(msg.body) == Some(TypeOf(msg.body.payload));
          Listen(hs[0], ws, msg.body.payload);
      }
    }

    /** Runs the listener `h`, registered for the payload's type. */
    method Listen(h: Handler, ws: Socket<Frame>, p: Payload)
      requires Valid() && ws in clients
      requires TypeOf(p) in ServerHandlers() && ServerHandlers()[TypeOf(p)] == [h]
      requires SubscriberKnown(State(), Known(p)) && SignInAllowed(State(), ws.id, Known(p))
      modifies this`idToClient, this`topicsToIds, this`idToTopics
      modifies dispatcher`lastMsgId, dispatcher`pending, clients`sent, clients`onopen, ws`id
      ensures Valid()
      ensures State() == Handle(old(State()), ws, p).0
      ensures Delivered(Handle(old(State()), ws, p).1, old(clients))
    {
      match p {
        case TopicInfoRequest(topic) => HandleGetTopicInfoReq(ws, topic);
        case RelayPayload(from, to, relay) => HandleRelay(ws, from, to, relay);
        case SignInPayload(id) => HandleSignIn(ws, id);
        case SubscribePayload(id, topic) =>
          HandleSubscribe(id, topic);
          GrewByNothing(OutboxesOf(clients), dispatcher.lastMsgId);
      }
    }

    /** The connection's `onmessage`: the ACK first, then the dispatch. */
    method OnMessage(ws: Socket<Frame>, msg: Frame) returns (ghost sends: seq<Send<Socket<Frame>>>)
      requires Valid() && ws in clients
      requires WellFormed(msg) && SubscriberKnown(State(), msg.body) && SignInAllowed(State(), ws.id, msg.body)
      modifies this`idToClient, this`topicsToIds, this`idToTopics
      modifies dispatcher`lastMsgId, dispatcher`pending, dispatcher`fired, clients`sent, clients`onopen, ws`id
      ensures Valid()
      ensures (State(), sends) == Receive(old(State()), ws, msg)
      ensures Delivered(sends, old(clients))
    {
      ghost var n, before := dispatcher.lastMsgId, OutboxesOf(clients);
      ghost var acks := AckFor(ws, msg);
      Acknowledge(ws, msg);
      ghost var n', acked := dispatcher.lastMsgId, OutboxesOf(clients);
      var rest := HandleIncoming(ws, msg);
      GrewInTurn(before, acked, OutboxesOf(clients), acks, rest, n, n');
      sends := acks + rest;
    }

    /** The ACK of src/server.js:42, sent for every message that is not itself an ACK. */
    method Acknowledge(ws: Socket<Frame>, msg: Frame)
      requires Valid() && ws in clients
      modifies dispatcher`lastMsgId, dispatcher`pending, ws`sent, ws`onopen
      ensures Valid()
      ensures Delivered(AckFor(ws, msg), old(clients))
    {
      if BodyType(msg.body) != Some(Ack) {
        Deliver(ws, AckPayload(msg.msgId));
      } else {
        GrewByNothing(OutboxesOf(clients), dispatcher.lastMsgId);
      }
    }

    /** The connection's `close` event: the cleanup for a signed-in connection. */
    method OnClose(ws: Socket<Frame>)
      requires Valid() && ws in clients
      modifies this`idToClient, this`topicsToIds, this`idToTopics, this`clients, ws`state
      ensures Valid() && clients == old(clients) - {ws} && ws.state == Closed
      ensures State() == Close(old(State()), ws.id)
    {
      UnbindKeepsIdsBound(idToClient, clients, ws);
      ws.state := Closed;
      clients := clients - {ws};
      if ws.id.None? {
        return;
      }
      var id := ws.id.value;
      DisconnectConsistent(State(), id);
      var remaining := DeleteFromTopics(topicsToIds, id, idToTopics[id]);
      idToClient, topicsToIds, idToTopics := idToClient - {id}, remaining, idToTopics - {id};
    }
  }

  /**
   * The `forEach` of the close handler (src/server.js:59): deletes the id from the
   * subscribers of each of the given topics.
   */
  method DeleteFromTopics(topicsToIds: map<Topic, seq<Id>>, id: Id, topics: seq<Topic>)
    returns (r: map<Topic, seq<Id>>)
    requires NoDup(topics) && forall topic :: topic in topics ==> topic in topicsToIds
    ensures r == DeletedFrom(topicsToIds, id, topics)
  {
    r := topicsToIds;
    var k := 0;
    assert r == DeletedFrom(topicsToIds, id, topics[..0]);
    while k < |topics|
      invariant 0 <= k <= |topics|
      invariant r == DeletedFrom(topicsToIds, id, topics[..k])
    {
      DeletedFromStep(topicsToIds, id, topics, k);
      r := r[topics[k] := Delete(topicsToIds[topics[k]], id)];
      k := k + 1;
    }
    assert topics[..k] == topics;
  }
}
