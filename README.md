# Signalling servers over WebSockets — a Dafny model

The repository contains two small WebSocket servers that help peers find each other.

- **Topic registry** (`src/base.js`, `src/server.js`). Clients sign in under an id
  and subscribe ids to topics. They ask which ids are subscribed to a topic and relay
  arbitrary JSON to another signed-in id.
  - Every message carries a fresh message id and every non-ACK message is acknowledged.
  - A sender may register a callback that runs when the ACK for its message arrives.
  - When a connection closes, its id is released and removed from every topic.
- **Presence server and client** (`index.js`). Clients sign in under an id and send
  SIGNAL messages to other signed-in ids. They can also register to hear about another
  id's status.
  - When an id signs in, its listeners receive ONLINE.
  - When its connection closes, they receive OFFLINE.
  - The client queues what it sends until its socket opens, then writes each message
    and runs its callback in turn.

The model has six modules across five files:

| file | modules | what they model |
|---|---|---|
| `values.dfy` | `Wrappers`, `Sets`, `Values` | JSON values; ids (a number or a string); topics; the exact error texts; insertion-ordered sets with JavaScript `Set.add` / `Set.delete` semantics |
| `transport.dfy` | `Transport` | A WebSocket with a `readyState`, an `id` slot, the frames written to it, and the chain of writes deferred to its `onopen` handler |
| `protocol.dfy` | `Protocol` | `src/base.js`: the message types, the payload formatter, the frame codec, and the `MessageHandler` class |
| `registry.dfy` | `Registry` | `src/server.js` |
| `presence.dfy` | `Presence` | `index.js` |

`Protocol`:

- The pending-ACK table and the handlers are fields of the `MessageHandler` class.
- `sendMessage` either writes now or chains onto `onopen`, and it is proved to do exactly that.

`Registry` and `Presence` each have two layers:

- **Pure step functions** (`Receive`, `Handle`, `Close`) over the server tables. They
  state what one incoming message or one closed connection does: the new tables, and the
  messages sent, in order, to whom.
- **A class** whose fields are the source's maps. Its methods are proved to leave
  exactly the tables the step function gives. They also write exactly those messages, in
  order, onto the right sockets and touch no other socket (`Delivered` / `Grew`).

The lemmas about the step functions carry the source's promises:

- the three registry tables stay mutually consistent;
- subscribing is idempotent;
- a closed connection's id is released and dropped from every topic;
- every non-ACK message is acknowledged first;
- listeners get exactly one status message each;
- a callback runs right after its own message is written;
- the codec round-trips;
- an ACK fires its callback exactly once.

## Model

| member | source | states |
|---|---|---|
| `Sets.Add` | src/server.js:110-111 | `Set.add`: the old elements keep their order and come first; the result contains `x` and nothing else new; it stays duplicate-free |
| `Sets.Delete` | src/server.js:59 | `Set.delete`: removes exactly `x` and keeps every other element in its order (the result is the set with `x`'s position cut out). It stays duplicate-free and is the identity when `x` is absent |
| `Values.IdFromJson` | src/base.js:34-37 | an id is read back from JSON exactly when the value is a number or a string, and it is the unique id whose JSON form that value is |
| `Transport.ChainedWritesKeepCallOrder` | src/base.js:109-114 | chaining writes onto `onopen` (old handler first, then the new write) performs all earlier deferred writes, then the new ones in call order |
| `Transport.Socket.Accepted` | src/server.js:36 | a connection the server accepts is open, has no id, and nothing has been written to it |
| `Transport.Socket.Dialed` | index.js:175 | a socket the client dials is connecting, has no id, and has no writes and no open handler yet |
| `Transport.Socket.Send` | src/base.js:113-116 | `ws.send` on an open socket appends the frame; on a closing or closed socket it is dropped |
| `Transport.Socket.Opened` | src/base.js:108-114 | when the socket opens, the writes chained on `onopen` are performed in order and the pending outbox is unchanged as a whole |
| `Transport.Socket.Close` | index.js:218-220 | `close()` moves a connecting or open socket to closing |
| `Protocol.ParseType` | src/base.js:5-13 | a type name parses to type `t` if and only if it is `t`'s name |
| `Protocol.FormatPayload` | src/base.js:15-41 | the formatter produces an object whose keys are exactly the fields of the message type (an ACK without an id has no `ackMsgId` key) |
| `Protocol.IdsRoundTrip` | src/base.js:25-28 | the `peers` array of a GET_TOPIC_INFO_RSP reads back as the same ids in the same order |
| `Protocol.ParsePayload` | src/server.js:39-48 | a payload read under type `t` has type `t`, and only an object carrying every property that type's handler reads is accepted |
| `Protocol.PayloadRoundTrip` | src/base.js:15-41 | parsing a formatted payload under its own type gives the payload back |
| `Protocol.EncodeFrame` | src/base.js:98-102 | a sent frame is an object with a `type` field |
| `Protocol.TypeText` | src/base.js:68-69 | the name a `type` property is quoted under: a string as itself, a missing property as `undefined`; only a string `type` can name a protocol type |
| `Protocol.DecodeFrame` | src/server.js:39 | anything decoded is a well-formed frame: a body of a known type carries a payload of that type. A frame without a `type` is read as the unknown type `undefined`, and so is a number, string, boolean or array, with no msgId; `null` is rejected |
| `Protocol.FrameRoundTrip` | src/base.js:98-102 | decoding an encoded well-formed frame gives back the frame: msgId, type and payload |
| `Protocol.ApplyAck` | src/base.js:74-80 | a callback runs exactly when the ACK names a pending id. Then that entry, and only it, leaves the table, and its callback is the one that runs; otherwise nothing changes |
| `Protocol.AckFiresOnce` | src/base.js:74-80 | the ACK for a message sent with a callback invokes that callback once and restores the table; a repeated ACK does nothing |
| `Protocol.AckWithoutEntryIgnored` | src/base.js:74-80 | an ACK whose id has no pending callback changes nothing and invokes nothing |
| `Protocol.MessageHandler.constructor` | src/base.js:48-60 | message ids start at 1, nothing is pending, and only ACK is supported |
| `Protocol.MessageHandler.RegisterHandler` | src/base.js:62-65 | the type becomes supported and the handler is appended to that type's listeners; nothing else changes |
| `Protocol.MessageHandler.NextMsgId` | src/base.js:53-54 | returns the current id and advances the counter by one |
| `Protocol.MessageHandler.HandleMessage` | src/base.js:67-84 | the three routes, each with the state it leaves. An unknown or unsupported type is rejected with the exact error text and changes nothing. An ACK settles its pending entry as `ApplyAck` says. Any other supported type goes to its registered handlers |
| `Protocol.MessageHandler.SendMessage` | src/base.js:96-118 | uses the next id, which is not already pending, and records the callback only when one is given. On an open socket the frame is written now; otherwise it is chained onto `onopen`. Either way the socket's outbox grows by exactly this frame |
| `Registry.EmptyConsistent` | src/server.js:19-22 | the empty tables are consistent |
| `Registry.BindId` | src/server.js:95-101 | a successful sign-in binds the id to the connection and gives it an empty topic set; no other id and no topic changes |
| `Registry.BindConsistent` | src/server.js:95-101 | binding a fresh id with an empty topic set keeps the tables consistent |
| `Registry.SubscribeTo` | src/server.js:104-112 | the topic exists afterwards and lists the id, and the id lists the topic. Earlier subscribers and topics are kept, in order. No other topic or id changes, and no connection is bound or unbound |
| `Registry.SubscribeConsistent` | src/server.js:104-112 | subscribing keeps the tables consistent. The topic exists afterwards, lists the id, and the id lists the topic. Earlier subscribers are kept. No other topic or id changes |
| `Registry.SubscribeIdempotent` | src/server.js:104-112 | subscribing the same id to the same topic twice equals doing it once |
| `Registry.DeletedFromStep` | src/server.js:59 | removing the id from one more topic of the `forEach` is one `Set.delete` on that topic |
| `Registry.DeleteFromTopics` | src/server.js:59 | the cleanup loop removes the id from each of its topics, giving exactly `DeletedFrom` |
| `Registry.Disconnect` | src/server.js:56-60 | the id loses its connection and its topic set; the id is deleted from exactly the topics it had subscribed to; every topic is kept; other ids keep their connection and topics |
| `Registry.DisconnectConsistent` | src/server.js:52-61 | the close cleanup keeps the tables consistent |
| `Registry.DisconnectRemovesId` | src/server.js:56-60 | after cleanup the id is unbound and has no topic set. It is gone from every topic, every topic still exists, the other subscribers of each topic keep their order, and other ids keep their topic sets |
| `Registry.DisconnectKeepsSubscribersListed` | src/server.js:59 | every subscriber left in a topic still has that topic in its own set |
| `Registry.DisconnectKeepsTopicsListed` | src/server.js:59-60 | every topic an id still lists still lists that id |
| `Registry.DisconnectDeletesEverywhere` | src/server.js:59 | every topic loses exactly the closed id and stays duplicate-free |
| `Registry.Close` | src/server.js:52-61 | a connection that never signed in changes nothing; a signed-in one releases its id and its topic set; no topic disappears |
| `Registry.CloseAsWritten` | src/server.js:52-61 | the close handler as written skips the cleanup for the falsy ids `0` and `""`, and otherwise agrees with `Close` |
| `Registry.TopicInfoReply` | src/server.js:69-78 | the reply is GET_TOPIC_INFO_RSP with the topic's subscribers in subscription order if and only if the topic exists. Otherwise it is the "does not exist" ERROR |
| `Registry.Handle` | src/server.js:69-112 | each handler sends at most one message, and only SIGN_IN and SUBSCRIBE change the tables. Only a RELAY to a bound id writes to another connection, and it forwards the payload unchanged. An ERROR is sent exactly for a query on a missing topic, a RELAY to an unbound id, or a SIGN_IN under a bound id. A SIGN_IN under a free id binds it and sends nothing. A SIGN_IN under a bound id is answered "A client is already registered with ID" and leaves all three tables unchanged. A RELAY to an unbound id is answered "Client `to` is not online" and changes nothing |
| `Registry.Dispatch` | src/server.js:44-49 | `_handleMessage` with the server's error callback: an unsupported type gets one ERROR and changes nothing; an ACK gets nothing; a handled type runs its handler |
| `Registry.Receive` | src/server.js:38-49 | every message except an ACK is answered first by its ACK. After that come the dispatcher's sends, and the tables are the dispatcher's; at most two messages go out. Frames are those a JSON object can carry (`WellFormed`: an unknown `type` string names no message type) |
| `Registry.UntypedFrameRefused` | src/server.js:38-49 | a message with no `type`, or one that is not an object (apart from `null`), is acknowledged, then refused as the type `undefined`, and changes nothing |
| `Registry.ReceiveAcksFirst` | src/server.js:38-49 | every message except an ACK is answered first by an ACK of its msgId; an ACK is answered by nothing. An unsupported type gets that ACK and then the "not supported" ERROR, and nothing changes |
| `Registry.ReceiveTouches` | src/server.js:38-49 | only SIGN_IN and SUBSCRIBE change the tables; only a RELAY to a bound id sends to another connection, and then it forwards the payload unchanged |
| `Registry.ReceivePreservesConsistency` | src/server.js:38-49 | any incoming message keeps the tables consistent |
| `Registry.ReceiveSignIn` | src/server.js:89-102 | a sign-in under a free id is acknowledged and binds the id with no topics |
| `Registry.ReceiveSubscribe` | src/server.js:104-112 | a subscribe is acknowledged and performs `SubscribeTo` |
| `Registry.ReceiveTopicInfo` | src/server.js:69-78 | a topic query is acknowledged and then answered by `TopicInfoReply`, and the tables are unchanged |
| `Registry.TopicInfoScenario` | test/test.js:40-77 | the two test scenarios step by step: client 1's query lists `[1]`, and after client 2 subscribes, client 1's query lists `[1, 2]` |
| `Registry.SecondSubscriberGoesLast` | test/test.js:69 | a second subscriber is listed after the first |
| `Registry.CloseReleasesId` | src/server.js:52-61 | after a signed-in connection closes, the tables are consistent and its id can be signed in again |
| `Registry.FalsyIdSurvivesCloseAsWritten` | src/server.js:54 | with the truthiness test as written, closing the connection of id `0` leaves it bound, so a new sign-in under `0` is refused; the corrected close releases it |
| `Registry.UnbindKeepsIdsBound` | src/server.js:56 | dropping a closed connection and its id keeps every bound id pointing to a live connection that carries it |
| `Registry.Server.constructor` | src/server.js:13-34 | empty tables; the four handlers registered in source order; nothing pending |
| `Registry.Server.Connect` | src/server.js:36 | a new connection joins the server's connections |
| `Registry.Server.Deliver` | src/base.js:96-118 | one `sendMessage` without a callback: the next id is used and only the addressee's outbox grows, by that frame |
| `Registry.Server.Acknowledge` | src/server.js:42 | a non-ACK message gets an ACK of its msgId before anything else; an ACK gets nothing |
| `Registry.Server.Route` | src/server.js:44-49 | dispatch picks the route `ServerRoute` gives and writes nothing |
| `Registry.Server.Respond` | src/server.js:44-49 | acting on the route leaves exactly the tables and sends `Dispatch` gives; a rejection is answered with an ERROR |
| `Registry.Server.Listen` | src/server.js:31-34 | running the one handler registered for a type performs that type's `Handle` |
| `Registry.Server.HandleIncoming` | src/server.js:44-49 | route plus response equals `Dispatch`, with its sends delivered in order |
| `Registry.Server.OnMessage` | src/server.js:38-49 | one incoming message leaves exactly the tables `Receive` gives and writes exactly its sends, in order, to the right sockets |
| `Registry.Server.HandleGetTopicInfoReq` | src/server.js:69-78 | writes exactly the reply `Handle` gives for the query |
| `Registry.Server.HandleRelay` | src/server.js:80-87 | forwards the relay to the bound addressee or answers "not online", as `Handle` gives |
| `Registry.Server.HandleSignIn` | src/server.js:89-102 | refuses a bound id with the ERROR text, otherwise binds it; the tables and writes are as `Handle` gives |
| `Registry.Server.Bind` | src/server.js:95-101 | binding leaves exactly `BindId` of the old tables and writes nothing |
| `Registry.Server.Attach` | src/server.js:96-98 | the id maps to the connection and the connection carries the id; no outbox changes |
| `Registry.Server.HandleSubscribe` | src/server.js:104-112 | the tables become `SubscribeTo` of the old ones |
| `Registry.Server.OnClose` | src/server.js:52-61 | the socket is closed and leaves the connections. The tables become `Close` of the old ones: the id is released and removed from its topics, or nothing changes for a connection that never signed in |
| `Presence.Notify` | index.js:124-133 | one UPDATE_CLIENT_STATUS per listener, in listener order, each to that listener's connection and carrying the id and the status |
| `Presence.Register` | index.js:155-161 | REGISTER_CLIENT_STATUS adds the listener to the target's listeners after the earlier ones; no binding and no other listener list changes |
| `Presence.Handle` | index.js:112-161 | no handler unbinds or rebinds an id; only a successful SIGN_IN binds one, and only REGISTER_CLIENT_STATUS changes listeners. A SIGN_IN under a bound id gets exactly the ERROR and changes nothing. A SIGNAL changes nothing and sends one message, which is the forwarded payload exactly when the addressee is bound. REGISTER_CLIENT_STATUS sends nothing |
| `Presence.Receive` | index.js:59-68 | no message unbinds or rebinds an id; an unsupported type changes nothing and gets one reply, to its sender; the server's messages carry no sender id. Messages are those a JSON object can carry (`WellTyped`: an untyped name is no message type's name) |
| `Presence.Close` | index.js:71-84 | a connection that never signed in sends nothing; a signed-in one sends OFFLINE for its id to each listener's connection, once per listener, in order |
| `Presence.CloseAsWritten` | index.js:71-84 | the close handler as written sends nothing for the falsy ids `0` and `""`, and otherwise agrees with `Close` |
| `Presence.ReceiveTriage` | index.js:59-68 | an unsupported type is answered with the "not supported" ERROR and changes nothing; a supported one goes to its handler |
| `Presence.SignInOutcome` | index.js:112-134 | a bound id is refused with the exact ERROR. Otherwise the id is bound to this connection, other bindings and the listener table are kept, and each listener gets ONLINE once, in order |
| `Presence.SignalOutcome` | index.js:143-153 | a SIGNAL is forwarded with its payload to the addressee's connection when it is bound; otherwise the sender gets "not online". Nothing changes |
| `Presence.RegisterOutcome` | index.js:155-161 | registering adds the listener to the target's list, keeps earlier listeners and no duplicates, sends nothing, touches no other list, and is idempotent |
| `Presence.CloseKeepsBinding` | index.js:71-84 | closing a signed-in connection sends OFFLINE to each listener in order. The id stays bound, so a later sign-in under it is refused |
| `Presence.NotifyOncePerListener` | index.js:124-133 | with distinct listeners, each listener receives its status message at exactly one position |
| `Presence.FalsyIdGoesOfflineSilentlyAsWritten` | index.js:73 | with the truthiness test as written, closing the connection of id `0` sends no OFFLINE; the corrected close sends it |
| `Presence.StatusScenario` | index.js:112-161 | 2 signs in and registers for 1. When 1 signs in, 2 gets ONLINE. When 1's connection closes, 2 gets OFFLINE. A later sign-in under 1 is refused |
| `Presence.Deliver` | index.js:92-99 | one write to an open socket grows only that socket's outbox, by that packet |
| `Presence.NotifyAll` | index.js:125-133 | the `forEach` over the listeners writes exactly `Notify`'s messages, in order, and touches nothing else |
| `Presence.NotifyNext` | index.js:126-132 | one iteration writes the status message to the next listener |
| `Presence.Server.constructor` | index.js:29-55 | empty maps; SIGNAL, SIGN_IN and REGISTER_CLIENT_STATUS are the supported types |
| `Presence.Server.RegisterHandler` | index.js:47-50 | registering a type makes it supported |
| `Presence.Server.Connect` | index.js:57 | a new open connection joins the server's connections |
| `Presence.Server.HandleSignIn` | index.js:112-134 | the directory and the writes are exactly what `Handle` gives for SIGN_IN |
| `Presence.Server.Attach` | index.js:120-122 | the id maps to the connection and the connection carries the id; no outbox changes |
| `Presence.Server.HandleSignal` | index.js:143-153 | the writes are exactly what `Handle` gives for SIGNAL |
| `Presence.Server.HandleRegisterClientStatus` | index.js:155-161 | the directory becomes `Register` of the old one |
| `Presence.Server.OnMessage` | index.js:59-68 | one incoming message leaves exactly the directory `Receive` gives and writes exactly its sends, in order |
| `Presence.Server.OnClose` | index.js:71-84 | writes exactly `Close`'s OFFLINE messages to the listeners; the directory is unchanged |
| `Presence.PacketsOf` | index.js:197-216 | the packets written are the queued requests' packets, one for one |
| `Presence.CallbackFollowsItsWrite` | index.js:207-215 | every callback run comes right after the write of the request that carried it |
| `Presence.EffectsKeepRequestOrder` | index.js:207-215 | the effects of two batches of requests are those of the first followed by those of the second |
| `Presence.Client.constructor` | index.js:168-175 | the client's socket is connecting and nothing is queued or done |
| `Presence.Client.QueueSend` | index.js:197-216 | the request joins the end of the queue. It is completed at once exactly when the socket was open; otherwise it waits behind the earlier waiting requests, and nothing is completed |
| `Presence.Client.Complete` | index.js:213-214 | on an open socket the packet is written, then the callback runs |
| `Presence.Client.Opened` | index.js:208-211 | on open, every queued request completes in the order it was queued and the queue empties |
| `Presence.Client.CompleteNext` | index.js:208-211 | one queued `once('open')` listener completes its request |
| `Presence.Client.Close` | index.js:218-220 | the socket moves to closing |
| `Presence.Client.Signal` | index.js:222-231 | queues a SIGNAL from this client's id to `toId`; on an open socket it is completed at once, otherwise it waits behind the earlier waiting requests |
| `Presence.Client.SignIn` | index.js:233-239 | queues a SIGN_IN under this client's id; on an open socket it is completed at once, otherwise it waits behind the earlier waiting requests |
| `Presence.Client.RegisterForClientStatusUpdates` | index.js:241-250 | queues a REGISTER_CLIENT_STATUS from this client's id for `toId`; on an open socket it is completed at once, otherwise it waits behind the earlier waiting requests |

Where the written design and the code differ, the model follows the code.

- The registry's SIGN_IN does not broadcast ONLINE; only the presence server does.
- REGISTER_CLIENT_STATUS sends nothing right away: it registers and waits for the next change.
- A query for a topic nobody subscribed to gets an ERROR, not an empty list.
- The presence server's close handler does not release the id (`Presence.CloseKeepsBinding`).
- The registry server acknowledges even unsupported message types.
- `_registerHandler` appends a listener each time it is called, so registering twice is not idempotent.

## Left out

- JSON text: `JSON.stringify` / `JSON.parse` are modelled on a JSON value datatype. Byte-level text, key order and whitespace are not modelled.
- JavaScript numbers are modelled as integers; floating point is not modelled.
- Object-key coercion is not modelled. The source's tables are plain objects (src/server.js:19-22, index.js:35-36), keyed on the string form of an id, so `1` and `"1"` collide there; in the model they are different ids.
- Keys inherited from `Object.prototype` are not modelled either; the model treats every id and topic as absent until it is added. In the source:
  - a SIGN_IN under `"constructor"` or `"toString"` is refused as already registered (src/server.js:90, index.js:115);
  - a GET_TOPIC_INFO_REQ for such a topic answers GET_TOPIC_INFO_RSP instead of the ERROR (src/server.js:70-77);
  - a SUBSCRIBE to such a topic throws (src/server.js:110);
  - a REGISTER_CLIENT_STATUS for such an id throws (index.js:160).
- Protocol.AckedId: only a numeric `ackMsgId` finds its pending callback. A string such as `"3"` would also match key 3 through object-key coercion.
- A frame whose `type` is missing, `null` or a boolean is modelled: it is acknowledged and then refused under the rendered name (`Registry.UntypedFrameRefused`). So is a frame that is a number, string, boolean or array: its `type` and `msgId` read as `undefined`. A `null` frame throws at `data.type` (src/server.js:42); `DecodeFrame` rejects it. Frames whose `type` is a number, an array or an object are not modelled; `DecodeFrame` rejects them, while the source acknowledges and refuses them.
- Protocol.DecodeFrame: a known type whose payload lacks a property, or holds `null` or a value that is not an id, is not modelled; `DecodeFrame` rejects it. The source processes it. For example, a RELAY with `to: null` is answered "Client `null` is not online" (src/server.js:81-82), and a SIGN_IN without `id` binds the key `"undefined"` (src/server.js:96-101). A message with no `payload` at all makes the source dereference `undefined` only when the receiver handles its type; an ACK without `payload` throws at `msg.payload.ackMsgId` (src/base.js:75).
- Protocol.DecodeFrame: a known type without a `payload`, that the receiving side does not handle, is not modelled. `DecodeFrame` rejects it. The registry acknowledges `{"type": "ERROR"}` and refuses it as not supported without reading `payload` (src/base.js:68-70), and the presence server refuses it the same way (index.js:62-65).
- Presence.Receive: the presence server has no decoding step, and a handled type with missing or `null` fields is not modelled; its payloads always carry their fields. index.js processes such messages: a SIGNAL without `toId` is answered "Client `undefined` is not online" (index.js:144-145), a SIGN_IN without `id` binds the key `"undefined"` (index.js:120-122), and a REGISTER_CLIENT_STATUS without `toId` registers under `"undefined"` (index.js:155-160).
- Paths where the source throws are turned into preconditions, and what happens after the exception is not modelled:
  - a SUBSCRIBE for an id that never signed in (`SubscriberKnown`);
  - a listener id with no connection (`ListenersBound`);
  - a second sign-in on the same connection (`SignInAllowed`).
- Registry.Server.HandleSignIn: requires a connection binding a new id to carry no id. The source's `assert(!ws.id)` also lets a connection carrying the falsy id `0` or `""` through.
- Presence.Server.HandleSignIn: has the same restriction, for the same reason (index.js:121).
- Presence.Server.OnClose: requires the socket to be already closed. The OFFLINE writes go only to other, open sockets.
- Presence.SignalOutcome: the presence SIGNAL payload is modelled as exactly `{fromId, toId}`. index.js:149-152 forwards whatever object the sender gave, including further fields (the signalling data itself) and payloads with no `fromId`. So the forwarding is proved only for two-field payloads.
- Presence.Server.HandleSignal: same restriction as `Presence.SignalOutcome`.
- Presence.Client.Opened: callbacks are modelled as inert values that are recorded when invoked. A source callback that runs during the `open` event and calls back into the client writes its message at once, because the socket is already open, between the queued writes (index.js:208-214). The proved order assumes callbacks do not call back into the client.
- Protocol.MessageHandler.HandleMessage: an ACK's callback is likewise modelled as an inert value. A callback that re-enters the dispatcher is not modelled.
- The client-side inbound triage and logging (index.js:177-194) is not modelled: it only logs.
- `src/client.js` and `test.js` are not part of this model. The registry's own tests appear only as `Registry.TopicInfoScenario`.
- Concurrency and event-loop interleaving are not modelled: each event handler runs to completion, as in Node.js.
- The WebSocket server's listening port is not modelled.
- The `ws` library's errors on `send` to a closing or closed socket are not modelled; such a write is dropped.
- Console logging is not modelled.

## Findings

| source | as written | input that shows it | evidently intended | confidence | as-written member | corrected member |
|---|---|---|---|---|---|---|
| src/server.js:54 | `if (!ws.id) return` skips the whole close cleanup for any falsy id | a client signs in with id `0`, then its connection closes: `0` stays bound to the dead connection and every later SIGN_IN under `0` is refused | skip the cleanup only for a connection that never signed in | not executed; medium (the tests use numeric ids) | `Registry.CloseAsWritten`, `Registry.FalsyIdSurvivesCloseAsWritten` | `Registry.Close`, `Registry.CloseReleasesId` |
| index.js:73 | `if (!ws.id) return` skips the OFFLINE fan-out for any falsy id | a client signs in with id `0` and another registered for it; when `0`'s connection closes, the listener is never told OFFLINE | notify listeners whenever the closing connection had signed in | not executed; medium | `Presence.CloseAsWritten`, `Presence.FalsyIdGoesOfflineSilentlyAsWritten` | `Presence.Close`, `Presence.CloseKeepsBinding` |
