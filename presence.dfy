/**
 * The presence server and client of index.js, the earlier protocol of the repository.
 * Clients sign in under an id, ask to be told when another id comes online or goes
 * offline, and send each other SIGNAL messages through the server. Messages carry no
 * message id and are never acknowledged; the server writes with `ws.send` directly.
 *
 * As for the registry, the transitions are first stated as functions on a `Directory`
 * value (`Handle`, `Receive`, `Close`) and the `Server` class is proved to follow them.
 */
module Presence {
  import opened Wrappers
  import opened Values
  import opened Sets
  import opened Transport

  /** The message types of index.js:11-17. */
  datatype MessageType = Error | Signal | SignIn | RegisterClientStatus | UpdateClientStatus

  /** The `type` string of each message type. */
  function TypeName(t: MessageType): string
  {
    match t
    case Error => "ERROR"
    case Signal => "SIGNAL"
    case SignIn => "SIGN_IN"
    case RegisterClientStatus => "REGISTER_CLIENT_STATUS"
    case UpdateClientStatus => "UPDATE_CLIENT_STATUS"
  }

  /** The status an UPDATE_CLIENT_STATUS announces (index.js:19-22). */
  datatype ClientStatus = Online | Offline

  /** The payload of each message type, with the fields the code reads and writes. */
  datatype Payload =
    | ErrorPayload(message: string)
    | SignalPayload(fromId: Id, toId: Id)
    | SignInPayload(id: Id)
    | RegisterPayload(fromId: Id, toId: Id)
    | StatusPayload(id: Id, status: ClientStatus)

  function TypeOf(p: Payload): MessageType
  {
    match p
    case ErrorPayload(_) => Error
    case SignalPayload(_, _) => Signal
    case SignInPayload(_) => SignIn
    case RegisterPayload(_, _) => RegisterClientStatus
    case StatusPayload(_, _) => UpdateClientStatus
  }

  /** A message's type and payload, or a `type` outside the protocol (or none: "undefined"). */
  datatype Content = Typed(payload: Payload) | Untyped(typeName: string)

  /**
   * A message as a parsed JSON object can carry it: a `type` string that names a message
   * type always comes with that type's payload.
   */
  predicate WellTyped(c: Content)
  {
    c.Untyped? ==> forall t: MessageType :: TypeName(t) != c.typeName
  }

  /** The `type` string of a message, as the error text quotes it. */
  function ContentTypeName(c: Content): string
  {
    match c
    case Typed(p) => TypeName(TypeOf(p))
    case Untyped(name) => name
  }

  /** A message on the wire: `{type, id, payload}` from a client, `{type, payload}` from the server. */
  datatype Packet = Packet(id: Option<Id>, content: Content)

  /** A message the server writes: it carries no id. */
  function Outgoing(p: Payload): Packet
  {
    Packet(None, Typed(p))
  }

  /** The types the server registers a handler for (index.js:53-55). */
  function Supported(): set<MessageType>
  {
    {Signal, SignIn, RegisterClientStatus}
  }

  /**
   * The server's two tables: `_idToClient`, id to connection, and `_clientToListenerIDs`,
   * the ids that want to hear about an id's status; `C` is the connection type.
   */
  datatype Directory<C> = Directory(idToClient: map<Id, C>, listeners: map<Id, seq<Id>>)

  function EmptyDirectory<C>(): Directory<C>
  {
    Directory(map[], map[])
  }

  /** One `ws.send` of the server: the connection written to and the message written. */
  datatype Send<C> = Send(to: C, packet: Packet)

  /** The listeners of `id`: the registered set, or an empty one (`|| new Set()`). */
  function ListenersOf<C>(d: Directory<C>, id: Id): seq<Id>
  {
    if id in d.listeners then d.listeners[id] else []
  }

  /**
   * The `forEach` over listeners of index.js:75 and index.js:125: one UPDATE_CLIENT_STATUS
   * for `id` to the connection of each listener, in the listeners' order.
   */
  function Notify<C>(idToClient: map<Id, C>, ls: seq<Id>, id: Id, status: ClientStatus): (r: seq<Send<C>>)
    requires forall l :: l in ls ==> l in idToClient
    ensures |r| == |ls|
    ensures forall i :: 0 <= i < |ls| ==> r[i] == Send(idToClient[ls[i]], Outgoing(StatusPayload(id, status)))
    decreases |ls|
  {
    if ls == [] then []
    else
      var k := |ls| - 1;
      Notify(idToClient, ls[..k], id, status) + [Send(idToClient[ls[k]], Outgoing(StatusPayload(id, status)))]
  }

  /**
   * What the handlers dereference: a successful sign-in and a close look up the connection
   * of every listener (`_idToClient[l].send`), which throws for a listener that never
   * signed in.
   */
  predicate ListenersBound<C>(idToClient: map<Id, C>, ls: seq<Id>)
  {
    forall l :: l in ls ==> l in idToClient
  }

  /** A handler can run on `p` without throwing. */
  predicate HandlerDefined<C>(d: Directory<C>, ws: C, p: Payload)
  {
    p.SignInPayload? && p.id !in d.idToClient ==> ListenersBound(d.idToClient[p.id := ws], ListenersOf(d, p.id))
  }

  /** REGISTER_CLIENT_STATUS: creates the listener set of `toId` if needed and adds `fromId` to it. */
  function Register<C>(d: Directory<C>, fromId: Id, toId: Id): (r: Directory<C>)
    ensures r.idToClient == d.idToClient
    ensures fromId in ListenersOf(r, toId) && ListenersOf(d, toId) <= ListenersOf(r, toId)
    ensures forall l :: l in ListenersOf(r, toId) ==> l in ListenersOf(d, toId) || l == fromId
    ensures forall other :: other != toId ==> ListenersOf(r, other) == ListenersOf(d, other)
  {
    d.(listeners := d.listeners[toId := Add(ListenersOf(d, toId), fromId)])
  }

  /** The handler registered for the payload's type: the new directory and the messages sent, in order. */
  function Handle<C>(d: Directory<C>, ws: C, p: Payload): (r: (Directory<C>, seq<Send<C>>))
    requires HandlerDefined(d, ws, p)
    ensures d.idToClient.Keys <= r.0.idToClient.Keys
    ensures forall i :: i in d.idToClient ==> r.0.idToClient[i] == d.idToClient[i]
    ensures r.0.idToClient != d.idToClient ==> p.SignInPayload? && r.0.idToClient.Keys == d.idToClient.Keys + {p.id}
    ensures r.0.listeners != d.listeners ==> p.RegisterPayload?
    ensures p.SignInPayload? ==>
      (p.id in d.idToClient <==> r == (d, [Send(ws, Outgoing(ErrorPayload(AlreadyRegisteredText(p.id))))]))
    ensures p.SignalPayload? ==> r.0 == d && |r.1| == 1 && (p.toId in d.idToClient <==> r.1[0].packet == Outgoing(p))
    ensures p.RegisterPayload? ==> r.1 == []
    ensures TypeOf(p) !in Supported() ==> r == (d, [])
  {
    match p
    case SignInPayload(id) =>
      if id in d.idToClient then (d, [Send(ws, Outgoing(ErrorPayload(AlreadyRegisteredText(id))))])
      else
        var bound := d.idToClient[id := ws];
        (d.(idToClient := bound), Notify(bound, ListenersOf(d, id), id, Online))
    case SignalPayload(_, toId) =>
      if toId in d.idToClient then (d, [Send(d.idToClient[toId], Outgoing(p))])
      else (d, [Send(ws, Outgoing(ErrorPayload(NotOnlineText(toId))))])
    case RegisterPayload(fromId, toId) => (Register(d, fromId, toId), [])
    case _ => (d, [])  // types with no handler are rejected before a handler is looked up
  }

  /** The type of the message is one the server registered a handler for. */
  predicate Accepted(c: Content)
  {
    c.Typed? && TypeOf(c.payload) in Supported()
  }

  /** The message's handler can run without throwing. */
  predicate ReceiveDefined<C>(d: Directory<C>, ws: C, c: Content)
  {
    Accepted(c) ==> HandlerDefined(d, ws, c.payload)
  }

  /**
   * The triage of index.js:59-68: an ERROR back for a type with no handler, the type's
   * handler otherwise. The sender's id in the message is not used.
   */
  function Receive<C>(d: Directory<C>, ws: C, msg: Packet): (r: (Directory<C>, seq<Send<C>>))
    requires WellTyped(msg.content) && ReceiveDefined(d, ws, msg.content)
    ensures d.idToClient.Keys <= r.0.idToClient.Keys
    ensures forall i :: i in d.idToClient ==> r.0.idToClient[i] == d.idToClient[i]
    ensures !Accepted(msg.content) ==> r.0 == d && |r.1| == 1 && r.1[0].to == ws
    ensures forall s :: s in r.1 ==> s.packet.id.None?
  {
    if Accepted(msg.content) then Handle(d, ws, msg.content.payload)
    else (d, [Send(ws, Outgoing(ErrorPayload(NotSupportedText(ContentTypeName(msg.content)))))])
  }

  /** What `handleSignIn` asserts of the connection: an accepted SIGN_IN comes from one without an id. */
  predicate SignInAllowed<C>(d: Directory<C>, wsId: Option<Id>, c: Content)
  {
    c.Typed? && c.payload.SignInPayload? && c.payload.id !in d.idToClient ==> wsId.None?
  }

  /** The close handler can run without throwing. */
  predicate CloseDefined<C>(d: Directory<C>, wsId: Option<Id>)
  {
    wsId.Some? ==> ListenersBound(d.idToClient, ListenersOf(d, wsId.value))
  }

  /**
   * The close handler (index.js:71-84): nothing for a connection that never signed in, an
   * OFFLINE update to each listener otherwise. The directory is left as it was.
   */
  function Close<C>(d: Directory<C>, wsId: Option<Id>): (r: seq<Send<C>>)
    requires CloseDefined(d, wsId)
    ensures wsId.None? ==> r == []
    ensures wsId.Some? ==> |r| == |ListenersOf(d, wsId.value)|
    ensures forall i :: 0 <= i < |r| ==>
      wsId.Some? && r[i] == Send(d.idToClient[ListenersOf(d, wsId.value)[i]], Outgoing(StatusPayload(wsId.value, Offline)))
  {
    if wsId.None? then [] else Notify(d.idToClient, ListenersOf(d, wsId.value), wsId.value, Offline)
  }

  /** The close handler exactly as written: `!ws.id` also holds for the falsy ids 0 and "". */
  function CloseAsWritten<C>(d: Directory<C>, wsId: Option<Id>): (r: seq<Send<C>>)
    requires CloseDefined(d, wsId)
    ensures wsId.Some? && !Truthy(wsId.value) ==> r == []
    ensures wsId.None? || Truthy(wsId.value) ==> r == Close(d, wsId)
  {
    if wsId.None? || !Truthy(wsId.value) then [] else Close(d, wsId)
  }

  /** Every listener set is a set: no listener is told twice. */
  ghost predicate ListenersDistinct<C>(d: Directory<C>)
  {
    forall id :: id in d.listeners ==> NoDup(d.listeners[id])
  }

  /**
   * An unsupported type gets exactly one ERROR, back to its sender, and changes nothing;
   * a supported one runs its handler and nothing else.
   */
  lemma ReceiveTriage<C>(d: Directory<C>, ws: C, msg: Packet)
    requires WellTyped(msg.content) && ReceiveDefined(d, ws, msg.content)
    ensures !Accepted(msg.content) ==>
      Receive(d, ws, msg) == (d, [Send(ws, Outgoing(ErrorPayload(NotSupportedText(ContentTypeName(msg.content)))))])
    ensures Accepted(msg.content) ==> Receive(d, ws, msg) == Handle(d, ws, msg.content.payload)
  {
  }

  /**
   * A sign-in under an id that is taken sends one ERROR to the requester and changes
   * nothing. A successful one binds the id to the connection, keeps every other binding and
   * the listener table, and sends exactly one ONLINE for the id to each of its listeners, in
   * the order they registered.
   */
  lemma SignInOutcome<C>(d: Directory<C>, ws: C, id: Id)
    requires HandlerDefined(d, ws, SignInPayload(id))
    ensures var (d', out) := Handle(d, ws, SignInPayload(id));
      && (id in d.idToClient ==> d' == d && out == [Send(ws, Outgoing(ErrorPayload(AlreadyRegisteredText(id))))])
      && (id !in d.idToClient ==>
            && d'.idToClient.Keys == d.idToClient.Keys + {id} && d'.idToClient[id] == ws
            && (forall other :: other in d.idToClient ==> d'.idToClient[other] == d.idToClient[other])
            && d'.listeners == d.listeners
            && |out| == |ListenersOf(d, id)|
            && (forall i :: 0 <= i < |out| ==>
                  out[i] == Send(d'.idToClient[ListenersOf(d, id)[i]], Outgoing(StatusPayload(id, Online)))))
  {
  }

  /**
   * SIGNAL to an id that is not signed in gets a "not online" ERROR back; otherwise the
   * payload goes, unchanged, to that id's connection and nowhere else. Nothing changes.
   */
  lemma SignalOutcome<C>(d: Directory<C>, ws: C, fromId: Id, toId: Id)
    ensures var (d', out) := Handle(d, ws, SignalPayload(fromId, toId));
      && d' == d && |out| == 1
      && (toId in d.idToClient ==> out[0] == Send(d.idToClient[toId], Packet(None, Typed(SignalPayload(fromId, toId)))))
      && (toId !in d.idToClient ==> out[0] == Send(ws, Outgoing(ErrorPayload(NotOnlineText(toId)))))
  {
  }

  /**
   * REGISTER_CLIENT_STATUS adds `fromId` to the listeners of `toId`, after the earlier ones,
   * sends nothing and touches no other entry; registering twice is registering once.
   */
  lemma {:induction false} RegisterOutcome<C>(d: Directory<C>, ws: C, fromId: Id, toId: Id)
    requires ListenersDistinct(d)
    ensures var (d', out) := Handle(d, ws, RegisterPayload(fromId, toId));
      && out == [] && d'.idToClient == d.idToClient
      && ListenersDistinct(d')
      && fromId in ListenersOf(d', toId) && ListenersOf(d, toId) <= ListenersOf(d', toId)
      && (forall l :: l in ListenersOf(d', toId) ==> l in ListenersOf(d, toId) || l == fromId)
      && (forall other :: other != toId ==> ListenersOf(d', other) == ListenersOf(d, other))
      && Handle(d', ws, RegisterPayload(fromId, toId)) == (d', [])
  {
    var d' := Register(d, fromId, toId);
    assert d'.listeners[toId := Add(ListenersOf(d', toId), fromId)] == d'.listeners;
  }

  /**
   * The close of a signed-in connection sends exactly one OFFLINE for its id to each of its
   * listeners and keeps the binding: a new sign-in under the id is still refused.
   */
  lemma CloseKeepsBinding<C>(d: Directory<C>, id: Id, other: C)
    requires id in d.idToClient && CloseDefined(d, Some(id))
    ensures var out := Close(d, Some(id));
      && |out| == |ListenersOf(d, id)|
      && (forall i :: 0 <= i < |out| ==>
            out[i] == Send(d.idToClient[ListenersOf(d, id)[i]], Outgoing(StatusPayload(id, Offline))))
      && Handle(d, other, SignInPayload(id)) == (d, [Send(other, Outgoing(ErrorPayload(AlreadyRegisteredText(id))))])
  {
  }

  /** With no duplicate listeners, each listener gets the update exactly once. */
  lemma NotifyOncePerListener<C>(idToClient: map<Id, C>, ls: seq<Id>, id: Id, status: ClientStatus, l: Id)
    requires NoDup(ls) && ListenersBound(idToClient, ls) && l in ls
    ensures exists i :: (0 <= i < |ls| && ls[i] == l
      && Notify(idToClient, ls, id, status)[i] == Send(idToClient[l], Outgoing(StatusPayload(id, status)))
      && forall j :: 0 <= j < |ls| && j != i ==> ls[j] != l)
  {
    var i :| 0 <= i < |ls| && ls[i] == l;
    assert Notify(idToClient, ls, id, status)[i] == Send(idToClient[l], Outgoing(StatusPayload(id, status)));
  }

  /**
   * The close handler as written never tells the listeners of the id 0 that it went
   * offline; the corrected handler does.
   */
  lemma FalsyIdGoesOfflineSilentlyAsWritten<C>(c: C, listener: C)
    ensures var d := Directory(map[Num(0) := c, Num(5) := listener], map[Num(0) := [Num(5)]]);
      && CloseAsWritten(d, Some(Num(0))) == []
      && Close(d, Some(Num(0))) == [Send(listener, Outgoing(StatusPayload(Num(0), Offline)))]
  {
    var d := Directory(map[Num(0) := c, Num(5) := listener], map[Num(0) := [Num(5)]]);
    assert ListenersOf(d, Num(0)) == [Num(5)];
  }

  /**
   * A session of the status protocol: client 2 signs in and asks about client 1; client 1
   * signs in, and client 2 hears it is online; client 1's connection closes, and client 2
   * hears it is offline; a later sign-in under 1 is refused, since its binding was kept.
   */
  lemma StatusScenario<C>(c1: C, c2: C, late: C)
    ensures var d1 := Directory(map[Num(2) := c2], map[]);
      var d2 := Directory(map[Num(2) := c2], map[Num(1) := [Num(2)]]);
      var d3 := Directory(map[Num(2) := c2, Num(1) := c1], map[Num(1) := [Num(2)]]);
      && Receive(EmptyDirectory<C>(), c2, Packet(Some(Num(2)), Typed(SignInPayload(Num(2))))) == (d1, [])
      && Receive(d1, c2, Packet(Some(Num(2)), Typed(RegisterPayload(Num(2), Num(1))))) == (d2, [])
      && Receive(d2, c1, Packet(Some(Num(1)), Typed(SignInPayload(Num(1)))))
         == (d3, [Send(c2, Outgoing(StatusPayload(Num(1), Online)))])
      && Close(d3, Some(Num(1))) == [Send(c2, Outgoing(StatusPayload(Num(1), Offline)))]
      && Receive(d3, late, Packet(Some(Num(1)), Typed(SignInPayload(Num(1)))))
         == (d3, [Send(late, Outgoing(ErrorPayload(AlreadyRegisteredText(Num(1)))))])
  {
    var d1 := Directory(map[Num(2) := c2], map[]);
    var d2 := Directory(map[Num(2) := c2], map[Num(1) := [Num(2)]]);
    var d3 := Directory(map[Num(2) := c2, Num(1) := c1], map[Num(1) := [Num(2)]]);
    assert ListenersOf(EmptyDirectory<C>(), Num(2)) == [];
    assert Add(ListenersOf(d1, Num(1)), Num(2)) == [Num(2)];
    assert ListenersOf(d2, Num(1)) == [Num(2)];
    assert ListenersOf(d3, Num(1)) == [Num(2)];
    assert d2.idToClient[Num(1) := c1] == d3.idToClient;
    assert [Num(2)][..0] == [];
    assert Notify(d3.idToClient, [Num(2)], Num(1), Online) == [Send(c2, Outgoing(StatusPayload(Num(1), Online)))];
  }

  /** What the server sends to each connection: an outbox per connection, with its state. */
  function PacketsFor<C(==)>(sends: seq<Send<C>>, s: C): seq<Packet>
    decreases |sends|
  {
    if sends == [] then []
    else
      var k := |sends| - 1;
      PacketsFor(sends[..k], s) + (if sends[k].to == s then [sends[k].packet] else [])
  }

  /** Sends performed one batch after another deliver like one batch. */
  lemma {:induction false} PacketsForConcat<C>(a: seq<Send<C>>, b: seq<Send<C>>, s: C)
    ensures PacketsFor(a + b, s) == PacketsFor(a, s) + PacketsFor(b, s)
    decreases |b|
  {
    if b == [] {
      assert a + b == a;
    } else {
      var k := |b| - 1;
      PacketsForConcat(a, b[..k], s);
      assert (a + b)[..|a| + k] == a + b[..k];
    }
  }

  /** The status updates to the first `k + 1` listeners are those to the first `k`, then the next one. */
  lemma GrewByOneMore(m0: Outboxes, m1: Outboxes, m2: Outboxes, idToClient: map<Id, Socket<Packet>>, ls: seq<Id>, k: nat,
                      id: Id, status: ClientStatus)
    requires k < |ls| && ListenersBound(idToClient, ls)
    requires Grew(m0, m1, Notify(idToClient, ls[..k], id, status))
    requires Grew(m1, m2, [Send(idToClient[ls[k]], Outgoing(StatusPayload(id, status)))])
    ensures Grew(m0, m2, Notify(idToClient, ls[..k + 1], id, status))
  {
    assert ls[..k + 1][..k] == ls[..k];
    GrewInTurn(m0, m1, m2, Notify(idToClient, ls[..k], id, status),
               [Send(idToClient[ls[k]], Outgoing(StatusPayload(id, status)))]);
  }

  /** Each connection's ready state and what it has on the wire. */
  type Outboxes = map<Socket<Packet>, (ReadyState, seq<Packet>)>

  /**
   * `after` is `before` once `sends` are performed: each connection keeps its state and gets
   * the messages addressed to it, if it is still open.
   */
  ghost predicate Grew(before: Outboxes, after: Outboxes, sends: seq<Send<Socket<Packet>>>)
  {
    && after.Keys == before.Keys
    && forall s :: s in before ==>
         after[s] == (before[s].0, before[s].1 + Accepting(before[s].0, PacketsFor(sends, s)))
  }

  lemma GrewByNothing(m: Outboxes)
    ensures Grew(m, m, [])
  {
    forall s | s in m
      ensures m[s] == (m[s].0, m[s].1 + Accepting(m[s].0, PacketsFor([], s)))
    {
      assert m[s].1 + [] == m[s].1;
    }
  }

  lemma GrewInTurn(m0: Outboxes, m1: Outboxes, m2: Outboxes, a: seq<Send<Socket<Packet>>>, b: seq<Send<Socket<Packet>>>)
    requires Grew(m0, m1, a) && Grew(m1, m2, b)
    ensures Grew(m0, m2, a + b)
  {
    forall s | s in m0
      ensures m2[s] == (m0[s].0, m0[s].1 + Accepting(m0[s].0, PacketsFor(a + b, s)))
    {
      PacketsForConcat(a, b, s);
      var (state, box) := m0[s];
      var first, second := Accepting(state, PacketsFor(a, s)), Accepting(state, PacketsFor(b, s));
      assert Accepting(state, PacketsFor(a + b, s)) == first + second;
      assert m1[s] == (state, box + first);
      assert m2[s] == (state, (box + first) + second);
      assert (box + first) + second == box + (first + second);
    }
  }

  /** The state and what is on the wire of each of `sockets`. */
  ghost function OutboxesOf(sockets: set<Socket<Packet>>): (r: Outboxes)
    reads sockets`state, sockets`sent
    ensures r.Keys == sockets
  {
    map s | s in sockets :: (s.state, s.sent)
  }

  /** Every one of `sockets` has opened, so writing to it does not throw. */
  ghost predicate Writable(sockets: set<Socket<Packet>>)
    reads sockets`state
  {
    forall s :: s in sockets ==> s.state != Connecting
  }

  /** One `ws.send` of a JSON-encoded `{type, payload}` to a connection that has opened. */
  method Deliver(ghost clients: set<Socket<Packet>>, to: Socket<Packet>, p: Payload)
    requires to in clients && Writable(clients)
    modifies to`sent
    ensures Grew(old(OutboxesOf(clients)), OutboxesOf(clients), [Send(to, Outgoing(p))])
  {
    to.Send(Outgoing(p));
    forall s | s in clients
      ensures OutboxesOf(clients)[s]
        == (old(s.state), old(s.sent) + Accepting(old(s.state), PacketsFor([Send(to, Outgoing(p))], s)))
    {
      assert [Send(to, Outgoing(p))][..0] == [];
      assert OutboxesOf(clients)[s] == (s.state, s.sent);
      if s != to {
        assert PacketsFor([Send(to, Outgoing(p))], s) == [];
        assert s.sent == old(s.sent) + [];
      } else {
        assert PacketsFor([Send(to, Outgoing(p))], s) == [Outgoing(p)];
      }
    }
  }

  /**
   * The `forEach` of index.js:75 and index.js:125: a status update for `id` to the
   * connection of each listener in `ls`, in order.
   */
  method NotifyAll(ghost clients: set<Socket<Packet>>, idToClient: map<Id, Socket<Packet>>, ls: seq<Id>, id: Id,
                   status: ClientStatus) returns (ghost sends: seq<Send<Socket<Packet>>>)
    requires ListenersBound(idToClient, ls)
    requires forall l :: l in ls ==> idToClient[l] in clients
    requires Writable(clients)
    modifies clients`sent
    ensures sends == Notify(idToClient, ls, id, status)
    ensures Grew(old(OutboxesOf(clients)), OutboxesOf(clients), sends)
  {
    GrewByNothing(OutboxesOf(clients));
    var k := 0;
    while k < |ls|
      invariant 0 <= k <= |ls|
      invariant Grew(old(OutboxesOf(clients)), OutboxesOf(clients), Notify(idToClient, ls[..k], id, status))
    {
      NotifyNext(clients, idToClient, ls, k, id, status, old(OutboxesOf(clients)));
      k := k + 1;
    }
    assert ls[..k] == ls;
    sends := Notify(idToClient, ls, id, status);
  }

  /** One round of the `forEach`: the update to the listener at position `k`. */
  method NotifyNext(ghost clients: set<Socket<Packet>>, idToClient: map<Id, Socket<Packet>>, ls: seq<Id>, k: nat, id: Id,
                    status: ClientStatus, ghost before: Outboxes)
    requires k < |ls| && ListenersBound(idToClient, ls)
    requires idToClient[ls[k]] in clients && Writable(clients)
    requires Grew(before, OutboxesOf(clients), Notify(idToClient, ls[..k], id, status))
    modifies clients`sent
    ensures Grew(before, OutboxesOf(clients), Notify(idToClient, ls[..k + 1], id, status))
  {
    ghost var mid := OutboxesOf(clients);
    Deliver(clients, idToClient[ls[k]], StatusPayload(id, status));
    GrewByOneMore(before, mid, OutboxesOf(clients), idToClient, ls, k, id, status);
  }

  /**
   * An id is bound to a connection exactly when that connection carries the id. The close
   * handler never unbinds, so this holds for closed connections too.
   */
  ghost predicate IdsBound(idToClient: map<Id, Socket<Packet>>, clients: set<Socket<Packet>>)
    reads clients`id
  {
    && (forall i :: i in idToClient ==> idToClient[i] in clients && idToClient[i].id == Some(i))
    && (forall ws :: ws in clients && ws.id.Some? ==> ws.id.value in idToClient && idToClient[ws.id.value] == ws)
  }

  /** The presence server of index.js:28-162. */
  class Server {
    /** `_idToClient`. */
    var idToClient: map<Id, Socket<Packet>>
    /** `_clientToListenerIDs`. */
    var listeners: map<Id, seq<Id>>
    /** `_supportedMessageTypes`. */
    var supported: set<MessageType>
    /** Every connection the server has accepted. */
    ghost var clients: set<Socket<Packet>>

    function State(): Directory<Socket<Packet>>
      reads this
    {
      Directory(idToClient, listeners)
    }

    /**
     * The three handlers are registered; listener sets hold no repeats; an id is bound to
     * a connection exactly when the connection carries it; every connection the server
     * accepted has opened, so writing to it never throws.
     */
    ghost predicate Valid()
      reads this, clients`id, clients`state
    {
      && supported == Supported()
      && ListenersDistinct(State())
      && IdsBound(idToClient, clients)
      && Writable(clients)
    }

    /** Empty tables and the three handlers of index.js:53-55. */
    constructor ()
      ensures Valid() && State() == EmptyDirectory() && clients == {}
    {
      idToClient := map[];
      listeners := map[];
      supported := {};
      clients := {};
      new;
      RegisterHandler(Signal);
      RegisterHandler(SignIn);
      RegisterHandler(RegisterClientStatus);
    }

    /** `_registerHandler`: the type becomes supported. */
    method RegisterHandler(t: MessageType)
      modifies this`supported
      ensures supported == old(supported) + {t}
    {
      supported := supported + {t};
    }

    /** The `connection` event: a new, open connection that has not signed in. */
    method Connect(ws: Socket<Packet>)
      requires Valid() && ws !in clients && ws.id == None && ws.state == Open
      modifies this`clients
      ensures Valid() && clients == old(clients) + {ws}
    {
      clients := clients + {ws};
    }

    /** `handleSignIn`: binds the id and tells its listeners, or an ERROR if the id is taken. */
    method HandleSignIn(ws: Socket<Packet>, id: Id) returns (ghost sends: seq<Send<Socket<Packet>>>)
      requires Valid() && ws in clients && HandlerDefined(State(), ws, SignInPayload(id))
      requires id !in idToClient ==> ws.id.None?
      modifies this`idToClient, ws`id, clients`sent
      ensures Valid()
      ensures (State(), sends) == Handle(old(State()), ws, SignInPayload(id))
      ensures Grew(old(OutboxesOf(clients)), OutboxesOf(clients), sends)
    {
      if id in idToClient {
        Deliver(clients, ws, ErrorPayload(AlreadyRegisteredText(id)));
        sends := [Send(ws, Outgoing(ErrorPayload(AlreadyRegisteredText(id))))];
        return;
      }
      Attach(ws, id);
      sends := NotifyAll(clients, idToClient, ListenersOf(State(), id), id, Online);
    }

    /** Records `ws` under `id` in the lookup table and on the connection itself. */
    method Attach(ws: Socket<Packet>, id: Id)
      requires IdsBound(idToClient, clients) && ws in clients && id !in idToClient && ws.id.None?
      modifies this`idToClient, ws`id
      ensures IdsBound(idToClient, clients)
      ensures idToClient == old(idToClient)[id := ws] && ws.id == Some(id)
      ensures OutboxesOf(clients) == old(OutboxesOf(clients))
    {
      idToClient := idToClient[id := ws];
      ws.id := Some(id);
      forall i | i in idToClient
        ensures idToClient[i] in clients && idToClient[i].id == Some(i)
      {
        if i != id {
          assert old(idToClient[i]).id == Some(i);
        }
      }
    }

    /** `handleSignal`: forwards the payload to the recipient's connection, or an ERROR. */
    method HandleSignal(ws: Socket<Packet>, fromId: Id, toId: Id) returns (ghost sends: seq<Send<Socket<Packet>>>)
      requires Valid() && ws in clients
      modifies clients`sent
      ensures sends == Handle(State(), ws, SignalPayload(fromId, toId)).1
      ensures Grew(old(OutboxesOf(clients)), OutboxesOf(clients), sends)
    {
      if toId !in idToClient {
        Deliver(clients, ws, ErrorPayload(NotOnlineText(toId)));
        sends := [Send(ws, Outgoing(ErrorPayload(NotOnlineText(toId))))];
        return;
      }
      Deliver(clients, idToClient[toId], SignalPayload(fromId, toId));
      sends := [Send(idToClient[toId], Outgoing(SignalPayload(fromId, toId)))];
    }

    /** `handleRegisterClientStatus`: `fromId` joins the listeners of `toId`. */
    method HandleRegisterClientStatus(fromId: Id, toId: Id)
      requires Valid()
      modifies this`listeners
      ensures Valid()
      ensures State() == Register(old(State()), fromId, toId)
    {
      if toId !in listeners {
        listeners := listeners[toId := []];
      }
      listeners := listeners[toId := Add(listeners[toId], fromId)];
    }
  
    /**
     * The connection's `message` event: an ERROR back for a type with no handler
     * (index.js:62-65), the handler for the type otherwise (index.js:67).
     */
    method OnMessage(ws: Socket<Packet>, msg: Packet) returns (ghost sends: seq<Send<Socket<Packet>>>)
      requires Valid() && ws in clients && WellTyped(msg.content) && ReceiveDefined(State(), ws, msg.content)
      requires SignInAllowed(State(), ws.id, msg.content)
      modifies this`idToClient, this`listeners, ws`id, clients`sent
      ensures Valid()
      ensures (State(), sends) == Receive(old(State()), ws, msg)
      ensures Grew(old(OutboxesOf(clients)), OutboxesOf(clients), sends)
    {
      if !(msg.content.Typed? && TypeOf(msg.content.payload) in supported) {
        var reason := NotSupportedText(ContentTypeName(msg.content));
        Deliver(clients, ws, ErrorPayload(reason));
        sends := [Send(ws, Outgoing(ErrorPayload(reason)))];
        return;
      }
      match msg.content.payload {
        case SignInPayload(id) =>
          sends := HandleSignIn(ws, id);
        case SignalPayload(fromId, toId) =>
          sends := HandleSignal(ws, fromId, toId);
        case RegisterPayload(fromId, toId) =>
          HandleRegisterClientStatus(fromId, toId);
          GrewByNothing(OutboxesOf(clients));
          sends := [];
      }
    }

    /**
     * The connection's `close` event, which fires once the connection has closed: an
     * OFFLINE update to each listener of a connection that signed in. The binding of its id
     * is kept.
     */
    method OnClose(ws: Socket<Packet>) returns (ghost sends: seq<Send<Socket<Packet>>>)
      requires Valid() && ws in clients && ws.state == Closed && CloseDefined(State(), ws.id)
      modifies clients`sent
      ensures Valid()
      ensures sends == Close(State(), ws.id)
      ensures Grew(old(OutboxesOf(clients)), OutboxesOf(clients), sends)
    {
      if ws.id.None? {
        GrewByNothing(OutboxesOf(clients));
        return [];
      }
      var id := ws.id.value;
      sends := NotifyAll(clients, idToClient, ListenersOf(State(), id), id, Offline);
    }
  }

  /** A callback handed to `_queueSend`. Callbacks are foreign code, identified by a number. */
  type Callback = nat

  /** One `_queueSend` call: the message it writes and its callback, if any. */
  datatype Request = Request(packet: Packet, callback: Option<Callback>)

  /** What the client does that can be observed: a write, or a callback invoked with `null`. */
  datatype Effect = Wrote(packet: Packet) | Called(callback: Callback)

  /** The effects of carrying out one request: its write, followed at once by its callback. */
  function Effects(r: Request): seq<Effect>
  {
    if r.callback.Some? then [Wrote(r.packet), Called(r.callback.value)] else [Wrote(r.packet)]
  }

  /** The effects of carrying out `rs` in order. */
  function EffectsOf(rs: seq<Request>): seq<Effect>
    decreases |rs|
  {
    if rs == [] then [] else EffectsOf(rs[..|rs| - 1]) + Effects(rs[|rs| - 1])
  }

  /** The messages `rs` write, in order. */
  function PacketsOf(rs: seq<Request>): (r: seq<Packet>)
    ensures |r| == |rs| && forall i :: 0 <= i < |rs| ==> r[i] == rs[i].packet
    decreases |rs|
  {
    if rs == [] then [] else PacketsOf(rs[..|rs| - 1]) + [rs[|rs| - 1].packet]
  }

  /**
   * A callback never fires before its write: every callback invocation comes right after
   * the write of a request that carried that callback.
   */
  lemma {:induction false} CallbackFollowsItsWrite(rs: seq<Request>)
    ensures forall i :: 0 <= i < |EffectsOf(rs)| && EffectsOf(rs)[i].Called? ==>
      0 < i && exists j :: 0 <= j < |rs| && rs[j].callback == Some(EffectsOf(rs)[i].callback)
                           && EffectsOf(rs)[i - 1] == Wrote(rs[j].packet)
    decreases |rs|
  {
    if rs != [] {
      var k := |rs| - 1;
      var prefix := EffectsOf(rs[..k]);
      CallbackFollowsItsWrite(rs[..k]);
      var e := EffectsOf(rs);
      forall i | 0 <= i < |e| && e[i].Called?
        ensures 0 < i && exists j :: 0 <= j < |rs| && rs[j].callback == Some(e[i].callback) && e[i - 1] == Wrote(rs[j].packet)
      {
        if i < |prefix| {
          assert e[i] == prefix[i] && e[i - 1] == prefix[i - 1];
          var j :| 0 <= j < k && rs[..k][j].callback == Some(prefix[i].callback) && prefix[i - 1] == Wrote(rs[..k][j].packet);
          assert rs[j] == rs[..k][j];
        } else {
          assert e[|prefix|..] == Effects(rs[k]);
          assert i == |prefix| + 1 && e[i - 1] == Wrote(rs[k].packet);
        }
      }
    }
  }

  /** The write of each request comes before the writes of the requests after it. */
  lemma {:induction false} EffectsKeepRequestOrder(a: seq<Request>, b: seq<Request>)
    ensures EffectsOf(a + b) == EffectsOf(a) + EffectsOf(b)
    decreases |b|
  {
    if b != [] {
      var k := |b| - 1;
      EffectsKeepRequestOrder(a, b[..k]);
      assert (a + b)[..|a| + k] == a + b[..k];
    } else {
      assert a + b == a;
    }
  }

  /** The client of index.js:164-251. */
  class Client {
    const id: Id
    /** The client's connection to the server. */
    const ws: Socket<Packet>
    /** The `open` listeners `_queueSend` registered while the connection was not open, oldest first. */
    var waiting: seq<Request>
    /** Every write and callback so far, in order. */
    var effects: seq<Effect>
    /** The requests carried out so far, in order. */
    ghost var done: seq<Request>

    /**
     * The connection carries the writes of the requests carried out, and only them; once
     * it is open no request is left waiting.
     */
    ghost predicate Valid()
      reads this, ws
    {
      && ws.onopen == NoHandler
      && ws.sent == PacketsOf(done)
      && effects == EffectsOf(done)
      && (ws.state == Open ==> waiting == [])
    }

    /** A message of this client: its type, its id and the payload. */
    function Message(p: Payload): Packet
    {
      Packet(Some(id), Typed(p))
    }

    /** A client that starts to connect to the server. */
    constructor (id: Id)
      ensures Valid() && this.id == id && fresh(ws) && ws.state == Connecting
      ensures done == [] && waiting == []
    {
      this.id := id;
      ws := new Socket<Packet>.Dialed();
      waiting, effects, done := [], [], [];
    }

    /**
     * `_queueSend`: on an open connection the message is written and the callback invoked
     * now; otherwise both wait for the `open` event. Either way the request joins the others
     * in call order.
     */
    method QueueSend(p: Payload, cb: Option<Callback>)
      requires Valid()
      modifies this`waiting, this`effects, this`done, ws`sent
      ensures Valid()
      ensures done + waiting == old(done + waiting) + [Request(Message(p), cb)]
      ensures old(ws.state) == Open <==> done == old(done) + [Request(Message(p), cb)]
      ensures old(ws.state) != Open ==> done == old(done) && waiting == old(waiting) + [Request(Message(p), cb)]
    {
      var r := Request(Message(p), cb);
      if ws.state != Open {
        waiting := waiting + [r];
        assert done + waiting == old(done + waiting) + [r];
        return;
      }
      Complete(r);
    }

    /** Writes the request's message on the open connection, then invokes its callback. */
    method Complete(r: Request)
      requires Valid() && ws.state == Open
      modifies this`effects, this`done, ws`sent
      ensures Valid() && done == old(done) + [r]
    {
      ws.Send(r.packet);
      effects := effects + Effects(r);
      done := done + [r];
      assert done[..|done| - 1] == old(done);
    }

    /** The `open` event: the connection opens and the waiting requests are carried out in order. */
    method Opened()
      requires Valid() && ws.state == Connecting
      modifies this`waiting, this`effects, this`done, ws`state, ws`sent
      ensures Valid() && ws.state == Open && waiting == []
      ensures done == old(done + waiting)
    {
      ws.Opened();
      ghost var start := done;
      var queued := waiting;
      waiting := [];
      var k := 0;
      while k < |queued|
        invariant 0 <= k <= |queued| && Valid() && ws.state == Open && waiting == []
        invariant done == start + queued[..k]
      {
        CompleteNext(queued, k, start);
        k := k + 1;
      }
      assert queued[..k] == queued;
    }

    /** One round of the `open` event: carries out the waiting request at position `k`. */
    method CompleteNext(queued: seq<Request>, k: nat, ghost start: seq<Request>)
      requires Valid() && ws.state == Open && k < |queued| && done == start + queued[..k]
      modifies this`effects, this`done, ws`sent
      ensures Valid() && done == start + queued[..k + 1]
    {
      Complete(queued[k]);
      assert queued[..k + 1] == queued[..k] + [queued[k]];
    }

    /** `close`: the connection starts closing; requests still waiting are never carried out. */
    method Close()
      requires Valid() && (ws.state == Connecting || ws.state == Open)
      modifies ws`state
      ensures Valid() && ws.state == Closing
    {
      ws.Close();
    }

    /** `signal`: a SIGNAL from this client to `toId`. */
    method Signal(toId: Id, cb: Option<Callback>)
      requires Valid()
      modifies this`waiting, this`effects, this`done, ws`sent
      ensures Valid()
      ensures done + waiting == old(done + waiting) + [Request(Message(SignalPayload(id, toId)), cb)]
      ensures old(ws.state) == Open <==> done == old(done) + [Request(Message(SignalPayload(id, toId)), cb)]
      ensures old(ws.state) != Open ==> done == old(done) && waiting == old(waiting) + [Request(Message(SignalPayload(id, toId)), cb)]
    {
      QueueSend(SignalPayload(id, toId), cb);
    }

    /** `signIn`: a SIGN_IN under the client's id. */
    method SignIn(cb: Option<Callback>)
      requires Valid()
      modifies this`waiting, this`effects, this`done, ws`sent
      ensures Valid()
      ensures done + waiting == old(done + waiting) + [Request(Message(SignInPayload(id)), cb)]
      ensures old(ws.state) == Open <==> done == old(done) + [Request(Message(SignInPayload(id)), cb)]
      ensures old(ws.state) != Open ==> done == old(done) && waiting == old(waiting) + [Request(Message(SignInPayload(id)), cb)]
    {
      QueueSend(SignInPayload(id), cb);
    }

    /** `registerForClientStatusUpdates`: asks to hear when `toId` comes online or goes offline. */
    method RegisterForClientStatusUpdates(toId: Id, cb: Option<Callback>)
      requires Valid()
      modifies this`waiting, this`effects, this`done, ws`sent
      ensures Valid()
      ensures done + waiting == old(done + waiting) + [Request(Message(RegisterPayload(id, toId)), cb)]
      ensures old(ws.state) == Open <==> done == old(done) + [Request(Message(RegisterPayload(id, toId)), cb)]
      ensures old(ws.state) != Open ==> done == old(done) && waiting == old(waiting) + [Request(Message(RegisterPayload(id, toId)), cb)]
    {
      QueueSend(RegisterPayload(id, toId), cb);
    }
  }
}
