/** How a database reply's id finds its handler: a lookup in the reply handlers, then a lookup in the
    client packets' factories. */
module ReplyDispatch {
  import opened Wrappers
  import opened PacketDispatch

  /** What the handler registered for a reply asks the `any` for. It is not what a client packet's asks. */
  const REPLY_HANDLER_ASKS: PointerType := IPacketPointer

  /** `ThrownCast`: `any_cast` throws. `WrongObject`: the handler would view the made object as a class it
      is not. `Reached`: the handler is called with an object of its own class. */
  datatype ReplyOutcome = NoReplyHandler | NoReplyFactory | ThrownCast | WrongObject | Reached(handler: PacketType)

  function CallReplyHandler(kind: PacketType, packet: AnyPacket): ReplyOutcome {
    match AnyCast(packet, REPLY_HANDLER_ASKS)
    case None => ThrownCast
    case Some(found) => if found == kind then Reached(kind) else WrongObject
  }

  function FindReplyHandler(made: PointerType, factories: Registry, handlers: Registry, id: nat): ReplyOutcome {
    if id !in handlers then NoReplyHandler
    else if id !in factories then NoReplyFactory
    else CallReplyHandler(handlers[id], AnyPacket(made, factories[id]))
  }

  class ProcedureReplyHandler {
    var packetHandlerMap: Registry

    constructor ()
      ensures packetHandlerMap == map[]
    {
      packetHandlerMap := map[];
    }

    method RegisterPacketHandler(kind: PacketType)
      modifies this
      ensures packetHandlerMap == old(packetHandlerMap)[kind.id := kind]
    {
      packetHandlerMap := packetHandlerMap[kind.id := kind];
    }

    method Initialize()
      requires packetHandlerMap == map[]
      modifies this
      ensures packetHandlerMap == RegisterAll(DB_REPLIES)
    {
      RegisterPacketHandler(SELECT_TEST_2_REPLY);
      RegisterPacketHandler(DB_JOB_REPLY);
      assert RegisterAll(DB_REPLIES[..1]) == map[13 := SELECT_TEST_2_REPLY] by {
        assert DB_REPLIES[..1][..0] == [];
      }
    }

    method GetPacketHandler(id: nat) returns (kind: Option<PacketType>)
      ensures kind == if id in packetHandlerMap then Some(packetHandlerMap[id]) else None
    {
      kind := if id in packetHandlerMap then Some(packetHandlerMap[id]) else None;
    }

    method SPReplyHandle(manager: PacketManager, id: nat) returns (outcome: ReplyOutcome)
      ensures outcome == FindReplyHandler(manager.madeAs, manager.packetFactoryFunctionMap, packetHandlerMap, id)
    {
      var handler := GetPacketHandler(id);
      if handler == None {
        return NoReplyHandler;
      }
      var packet := manager.MakePacket(id);
      if packet == None {
        return NoReplyFactory;
      }
      var found := AnyCast(packet.value, REPLY_HANDLER_ASKS);
      if found == None {
        return ThrownCast;
      }
      outcome := if found == handler then Reached(handler.value) else WrongObject;
    }
  }

  ghost predicate ShareAnId(a: seq<PacketType>, b: seq<PacketType>) {
    exists i, j :: 0 <= i < |a| && 0 <= j < |b| && a[i].id == b[j].id
  }

  ghost predicate PassesLookups(o: ReplyOutcome) {
    !o.NoReplyHandler? && !o.NoReplyFactory?
  }

  /** As written only client packets have factories: whatever is registered and whatever MakePacket returns,
      some reply id gets past both lookups exactly when a reply shares its id with a client packet. */
  lemma ReplyReachability(made: PointerType, clients: seq<PacketType>, replies: seq<PacketType>)
    ensures (exists id :: PassesLookups(FindReplyHandler(made, RegisterAll(clients), RegisterAll(replies), id)))
      <==> ShareAnId(clients, replies)
  {
    if ShareAnId(clients, replies) {
      var i, j :| 0 <= i < |clients| && 0 <= j < |replies| && clients[i].id == replies[j].id;
      RegistryIsLastWins(clients, clients[i].id);
      RegistryIsLastWins(replies, clients[i].id);
      assert PassesLookups(FindReplyHandler(made, RegisterAll(clients), RegisterAll(replies), clients[i].id));
    }
    if id :| PassesLookups(FindReplyHandler(made, RegisterAll(clients), RegisterAll(replies), id)) {
      RegistryIsLastWins(clients, id);
      RegistryIsLastWins(replies, id);
      var i :| 0 <= i < |clients| && clients[i].id == id;
      var j :| 0 <= j < |replies| && replies[j].id == id;
      assert clients[i].id == replies[j].id;
    }
  }

  /** With the server's own lists, no reply whatsoever reaches a handler: the ids of registered replies stop
      at the missing factory. */
  lemma AsWrittenNoReplyArrives(id: nat)
    ensures var o := FindReplyHandler(MAKE_PACKET_RETURNS, RegisterAll(CLIENT_PACKETS), RegisterAll(DB_REPLIES), id);
      o == if id == 13 || id == 14 then NoReplyFactory else NoReplyHandler
  {
    RegistryIsLastWins(CLIENT_PACKETS, id);
    RegistryIsLastWins(DB_REPLIES, id);
    ClientIds(id);
    assert DB_REPLIES[0].id == SELECT_TEST_2_REPLY.id && DB_REPLIES[1].id == DB_JOB_REPLY.id;
  }

  /** The meant design also gives every reply a factory. With the pointer type MakePacket returns as written
      each reply id then reaches the handler registered last for it. With the one the client handlers ask
      for, every registered reply's cast throws instead: no return type suits both kinds of handler. */
  lemma MeantReplyDispatch(made: PointerType, clients: seq<PacketType>, replies: seq<PacketType>, id: nat)
    ensures FindReplyHandler(made, RegisterAll(clients + replies), RegisterAll(replies), id) ==
      if id !in RegisterAll(replies) then NoReplyHandler
      else if made == MAKE_PACKET_RETURNS then Reached(RegisterAll(replies)[id])
      else ThrownCast
    ensures made == CLIENT_HANDLER_ASKS ==>
      !FindReplyHandler(made, RegisterAll(clients + replies), RegisterAll(replies), id).Reached?
  {
    RegisterAllConcat(clients, replies);
  }

  /** So with the server's own lists id 13 reaches the select reply's handler and id 14 the job reply's. */
  lemma MeantServerReplies()
    ensures var o := (id: nat) =>
        FindReplyHandler(MAKE_PACKET_RETURNS, RegisterAll(CLIENT_PACKETS + DB_REPLIES), RegisterAll(DB_REPLIES), id);
      && o(13).Reached? && o(13).handler.name == "CallSelectTest2ProcedurePacketReply"
      && o(14).Reached? && o(14).handler.name == "DBJobReply"
      && forall id: nat | id != 13 && id != 14 :: o(id) == NoReplyHandler
  {
    assert RegisterAll(DB_REPLIES[..1]) == map[13 := SELECT_TEST_2_REPLY] by {
      assert DB_REPLIES[..1][..0] == [];
    }
    var factories, handlers := RegisterAll(CLIENT_PACKETS + DB_REPLIES), RegisterAll(DB_REPLIES);
    forall id: nat
      ensures FindReplyHandler(MAKE_PACKET_RETURNS, factories, handlers, id)
        == if id !in handlers then NoReplyHandler else Reached(handlers[id])
    {
      MeantReplyDispatch(MAKE_PACKET_RETURNS, CLIENT_PACKETS, DB_REPLIES, id);
    }
  }

  lemma {:induction false} RegisterAllConcat(a: seq<PacketType>, b: seq<PacketType>)
    ensures RegisterAll(a + b) == RegisterAll(a) + RegisterAll(b)
    decreases |b|
  {
    if b == [] {
      assert a + b == a;
    } else {
      assert (a + b)[..|a + b| - 1] == a + b[..|b| - 1];
      RegisterAllConcat(a, b[..|b| - 1]);
    }
  }
}
