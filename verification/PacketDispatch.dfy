/** Packets, the two registries that are keyed by packet id, and the way from SendPacket to a handler. */
module PacketDispatch {
  import opened Wrappers
  import opened Bytes
  import opened Codec

  /** A packet class: its name, what GetPacketId returns, and the fields its writer and reader list. */
  datatype PacketType = PacketType(name: string, id: nat, schema: seq<Type>)

  datatype Packet = Packet(kind: PacketType, fields: seq<Value>)

  // The client packets, with their ids from PACKET_ID.
  const TEST_STRING := PacketType("TestStringPacket", 1, [Text])
  const ECHO_STRING := PacketType("EchoStringPacket", 2, [Chars(30)])
  const TEST_PROCEDURE := PacketType("TestProcedurePacket", 3, [SInt(4), WideText])
  const SELECT_TEST_2 := PacketType("SelectTest2ProcedurePacket", 4, [SInt(8)])
  const PING := PacketType("Ping", 6, [])
  const PONG := PacketType("Pong", 7, [])
  const REQUEST_FILE_STREAM := PacketType("RequestFileStream", 8, [])
  const RESPONSE_FILE_STREAM := PacketType("ResponseFileStream", 9, [Chars(4096)])

  // The database replies.
  const SELECT_TEST_2_REPLY :=
    PacketType("CallSelectTest2ProcedurePacketReply", 13, [UInt(8), ListOf(SInt(4)), ListOf(Text)])
  const DB_JOB_REPLY := PacketType("DBJobReply", 14, [])

  /** REGISTER_PACKET_LIST. */
  const CLIENT_PACKETS: seq<PacketType> :=
    [TEST_STRING, ECHO_STRING, TEST_PROCEDURE, SELECT_TEST_2, PING, REQUEST_FILE_STREAM]

  /** REGISTER_ALL_DB_REPLY_HANDLER. */
  const DB_REPLIES: seq<PacketType> := [SELECT_TEST_2_REPLY, DB_JOB_REPLY]

  // ---------------------------------------------------------------- registries

  type Registry = map<nat, PacketType>

  /** The registry after registering a list in order: a later type takes an id over from an earlier one. */
  function RegisterAll(types: seq<PacketType>): Registry {
    if types == [] then map[]
    else
      var last := types[|types| - 1];
      RegisterAll(types[..|types| - 1])[last.id := last]
  }

  ghost predicate IsLastWithId(types: seq<PacketType>, id: nat, kind: PacketType) {
    exists i :: 0 <= i < |types| && types[i] == kind && kind.id == id && forall j | i < j < |types| :: types[j].id != id
  }

  /** An id is known exactly when some registered type has it, and it selects the last such type. */
  lemma {:induction false} RegistryIsLastWins(types: seq<PacketType>, id: nat)
    ensures id in RegisterAll(types) <==> exists i :: 0 <= i < |types| && types[i].id == id
    ensures id in RegisterAll(types) ==> IsLastWithId(types, id, RegisterAll(types)[id])
  {
    if types != [] {
      var n := |types| - 1;
      var before := types[..n];
      RegistryIsLastWins(before, id);
      if types[n].id == id {
        assert types[n] == RegisterAll(types)[id];
      } else if id in RegisterAll(types) {
        var i :|
          && 0 <= i < |before| && before[i] == RegisterAll(before)[id] && before[i].id == id
          && forall j | i < j < |before| :: before[j].id != id;
        assert types[i] == before[i];
        assert forall j | i < j < |types| && j != n :: types[j] == before[j];
      } else {
        forall i | 0 <= i < |types| ensures types[i].id != id {
          assert i < n ==> types[i] == before[i];
        }
      }
    }
  }

  /** The static type of a pointer to a packet object. */
  datatype PointerType = IPacketPointer | ClientPacketPointer

  /** A `std::any` with a packet pointer in it: the static type it was stored as, and the class of the
      object behind it. */
  datatype AnyPacket = AnyPacket(held: PointerType, kind: PacketType)

  /** `any_cast` asks for a type and throws unless the pointer was stored as exactly that type; that one
      of the two types derives from the other does not help. */
  function AnyCast(packet: AnyPacket, asked: PointerType): Option<PacketType>
  {
    if packet.held == asked then Some(packet.kind) else None
  }

  /** What PacketManager::MakePacket is declared to return, and so what `packet.get()` puts into the `any`. */
  const MAKE_PACKET_RETURNS: PointerType := IPacketPointer

  /** What the handler registered for a client packet asks the `any` for. */
  const CLIENT_HANDLER_ASKS: PointerType := ClientPacketPointer

  /** PacketManager: the factories and the handlers, both keyed by packet id. `madeAs` is the pointer type
      MakePacket returns. */
  class PacketManager {
    const madeAs: PointerType
    var packetFactoryFunctionMap: Registry
    var packetHandlerMap: Registry

    constructor (made: PointerType)
      ensures madeAs == made && packetFactoryFunctionMap == map[] && packetHandlerMap == map[]
    {
      madeAs := made;
      packetFactoryFunctionMap := map[];
      packetHandlerMap := map[];
    }

    /** Both maps are what registering `types` in order yields. */
    ghost predicate Registered(types: seq<PacketType>)
      reads this
    {
      packetFactoryFunctionMap == RegisterAll(types) && packetHandlerMap == RegisterAll(types)
    }

    method RegisterPacket(kind: PacketType)
      modifies `packetFactoryFunctionMap
      ensures packetFactoryFunctionMap == old(packetFactoryFunctionMap)[kind.id := kind]
    {
      packetFactoryFunctionMap := packetFactoryFunctionMap[kind.id := kind];
    }

    method RegisterPacketHandler(kind: PacketType)
      modifies `packetHandlerMap
      ensures packetHandlerMap == old(packetHandlerMap)[kind.id := kind]
    {
      packetHandlerMap := packetHandlerMap[kind.id := kind];
    }

    /** REGISTER_PACKET: whatever was registered before, repeated ids included, both maps stay equal. */
    method Register(kind: PacketType, ghost before: seq<PacketType>)
      requires Registered(before)
      modifies this
      ensures Registered(before + [kind])
    {
      RegisterPacket(kind);
      RegisterPacketHandler(kind);
      assert (before + [kind])[..|before|] == before;
    }

    method Init()
      requires Registered([])
      modifies this
      ensures Registered(CLIENT_PACKETS)
    {
      Register(TEST_STRING, []);
      assert [] + [TEST_STRING] == CLIENT_PACKETS[..1];
      Register(ECHO_STRING, CLIENT_PACKETS[..1]);
      assert CLIENT_PACKETS[..1] + [ECHO_STRING] == CLIENT_PACKETS[..2];
      Register(TEST_PROCEDURE, CLIENT_PACKETS[..2]);
      assert CLIENT_PACKETS[..2] + [TEST_PROCEDURE] == CLIENT_PACKETS[..3];
      Register(SELECT_TEST_2, CLIENT_PACKETS[..3]);
      assert CLIENT_PACKETS[..3] + [SELECT_TEST_2] == CLIENT_PACKETS[..4];
      Register(PING, CLIENT_PACKETS[..4]);
      assert CLIENT_PACKETS[..4] + [PING] == CLIENT_PACKETS[..5];
      Register(REQUEST_FILE_STREAM, CLIENT_PACKETS[..5]);
      assert CLIENT_PACKETS[..5] + [REQUEST_FILE_STREAM] == CLIENT_PACKETS;
    }

    method MakePacket(id: nat) returns (packet: Option<AnyPacket>)
      ensures packet ==
        if id in packetFactoryFunctionMap then Some(AnyPacket(madeAs, packetFactoryFunctionMap[id])) else None
    {
      packet := if id in packetFactoryFunctionMap then Some(AnyPacket(madeAs, packetFactoryFunctionMap[id])) else None;
    }

    method GetPacketHandler(id: nat) returns (kind: Option<PacketType>)
      ensures kind == if id in packetHandlerMap then Some(packetHandlerMap[id]) else None
    {
      kind := if id in packetHandlerMap then Some(packetHandlerMap[id]) else None;
    }
  }

  // ---------------------------------------------------------------- the buffer

  /** NetBuffer: writes append, reads advance a cursor. */
  class NetBuffer {
    var bytes: seq<byte>
    var readPos: nat

    ghost predicate Valid()
      reads this
    {
      readPos <= |bytes|
    }

    ghost function Unread(): seq<byte>
      requires Valid()
      reads this
    {
      bytes[readPos..]
    }

    constructor (content: seq<byte>)
      ensures Valid() && bytes == content && Unread() == content
    {
      bytes := content;
      readPos := 0;
    }

    method Write(t: Type, v: Value)
      requires Valid() && Fits(t, v)
      modifies this
      ensures Valid() && bytes == old(bytes) + Encode(t, v) && readPos == old(readPos)
    {
      bytes := bytes + Encode(t, v);
    }

    method Read(t: Type) returns (v: Option<Value>)
      requires Valid()
      modifies `readPos
      ensures Valid()
      ensures match Decode(t, old(Unread()))
        case None => v == None && readPos == old(readPos)
        case Some(d) => v == Some(d.value) && Unread() == d.rest
    {
      match Decode(t, bytes[readPos..])
      case None => v := None;
      case Some(d) =>
        EncodeDecode(t, bytes[readPos..]);
        v := Some(d.value);
        readPos := |bytes| - |d.rest|;
    }
  }

  /** The variadic writer: one parameter, then the rest of the pack. */
  method SetParametersToBuffer(buffer: NetBuffer, types: seq<Type>, values: seq<Value>)
    requires buffer.Valid() && FitAll(types, values)
    modifies buffer
    ensures buffer.Valid() && buffer.readPos == old(buffer.readPos)
    ensures buffer.bytes == old(buffer.bytes) + EncodeAll(types, values)
    decreases |types|
  {
    if |types| > 0 {
      buffer.Write(types[0], values[0]);
      SetParametersToBuffer(buffer, types[1..], values[1..]);
    }
  }

  /** The variadic reader. */
  method SetBufferToParameters(buffer: NetBuffer, types: seq<Type>) returns (values: Option<seq<Value>>)
    requires buffer.Valid()
    modifies buffer`readPos
    ensures buffer.Valid()
    ensures match DecodeAll(types, old(buffer.Unread()))
      case None => values == None
      case Some(d) => values == Some(d.value) && buffer.Unread() == d.rest
    decreases |types|
  {
    if |types| == 0 {
      return Some([]);
    }
    var first := buffer.Read(types[0]);
    if first == None {
      return None;
    }
    var rest := SetBufferToParameters(buffer, types[1..]);
    values := if rest == None then None else Some([first.value] + rest.value);
  }

  // ---------------------------------------------------------------- from one session to the other

  ghost predicate Sendable(p: Packet) {
    p.kind.id < Pow256(ID_WIDTH) && FitAll(p.kind.schema, p.fields)
  }

  /** What SendPacket puts into the buffer: the id, then the fields. */
  ghost function PacketBytes(p: Packet): seq<byte>
    requires Sendable(p)
  {
    ToLe(p.kind.id, ID_WIDTH) + EncodeAll(p.kind.schema, p.fields)
  }

  /** How a received buffer ends. `BadCast`: `any_cast` throws. `WrongType`: the handler would view the
      made object as a class it is not. `ShortBuffer`: a read ran past the end. `Handled`: the handler of
      the packet's class got it, and `rest` is left unread. */
  datatype Outcome =
    | ShortBuffer | NoHandler | NoFactory | BadCast | WrongType
    | Handled(packet: Packet, rest: seq<byte>)

  /** The handler registered for `kind`: it casts the made object and fills it from the buffer. */
  function RunHandler(kind: PacketType, packet: AnyPacket, s: seq<byte>): Outcome {
    match AnyCast(packet, CLIENT_HANDLER_ASKS)
    case None => BadCast
    case Some(found) =>
      if found != kind then WrongType
      else
        match DecodeAll(kind.schema, s)
        case None => ShortBuffer
        case Some(f) => Handled(Packet(kind, f.value), f.rest)
  }

  function Dispatch(made: PointerType, factories: Registry, handlers: Registry, s: seq<byte>): Outcome {
    match Take(s, ID_WIDTH)
    case None => ShortBuffer
    case Some(d) =>
      var id := FromLe(d.value);
      if id !in handlers then NoHandler
      else if id !in factories then NoFactory
      else RunHandler(handlers[id], AnyPacket(made, factories[id]), d.rest)
  }

  method SendPacket(p: Packet) returns (buffer: NetBuffer)
    requires Sendable(p)
    ensures fresh(buffer) && buffer.Valid() && buffer.Unread() == PacketBytes(p)
  {
    buffer := new NetBuffer([]);
    buffer.Write(UInt(ID_WIDTH), Num(p.kind.id));
    SetParametersToBuffer(buffer, p.kind.schema, p.fields);
  }

  method OnRecvPacket(manager: PacketManager, buffer: NetBuffer) returns (outcome: Outcome)
    requires buffer.Valid()
    modifies buffer`readPos
    ensures buffer.Valid()
    ensures outcome ==
      Dispatch(manager.madeAs, manager.packetFactoryFunctionMap, manager.packetHandlerMap, old(buffer.Unread()))
    ensures outcome.Handled? ==> buffer.Unread() == outcome.rest
  {
    var id := buffer.Read(UInt(ID_WIDTH));
    if id == None {
      return ShortBuffer;
    }
    var handler := manager.GetPacketHandler(id.value.n);
    if handler == None {
      return NoHandler;
    }
    var packet := manager.MakePacket(id.value.n);
    if packet == None {
      return NoFactory;
    }
    outcome := CallHandler(handler.value, packet.value, buffer);
  }

  method CallHandler(kind: PacketType, packet: AnyPacket, buffer: NetBuffer) returns (outcome: Outcome)
    requires buffer.Valid()
    modifies buffer`readPos
    ensures buffer.Valid() && outcome == RunHandler(kind, packet, old(buffer.Unread()))
    ensures outcome.Handled? ==> buffer.Unread() == outcome.rest
  {
    var found := AnyCast(packet, CLIENT_HANDLER_ASKS);
    if found == None {
      return BadCast;
    }
    if found.value != kind {
      return WrongType;
    }
    ghost var before := buffer.Unread();
    var fields := SetBufferToParameters(buffer, kind.schema);
    if fields == None {
      return ShortBuffer;
    }
    outcome := Handled(Packet(kind, fields.value), buffer.bytes[buffer.readPos..]);
  }

  /** After registering any list of types, a sent packet with anything behind it is handled as the same type
      with the same fields, leaving exactly what was behind it, if and only if MakePacket returns the
      pointer type the handlers ask for and the packet's type is the last one registered for its id. With
      any other return type the cast throws for every registered id; an unregistered id is ignored. */
  lemma EndToEnd(made: PointerType, types: seq<PacketType>, p: Packet, rest: seq<byte>)
    requires Sendable(p)
    ensures var registry := RegisterAll(types);
      var outcome := Dispatch(made, registry, registry, PacketBytes(p) + rest);
      && (outcome == Handled(p, rest) <==> made == CLIENT_HANDLER_ASKS && IsLastWithId(types, p.kind.id, p.kind))
      && (outcome == NoHandler <==> forall i | 0 <= i < |types| :: types[i].id != p.kind.id)
      && (outcome == BadCast <==> made != CLIENT_HANDLER_ASKS && outcome != NoHandler)
      && outcome != WrongType && outcome != NoFactory
  {
    var id := p.kind.id;
    var body := EncodeAll(p.kind.schema, p.fields) + rest;
    assert PacketBytes(p) + rest == ToLe(id, ID_WIDTH) + body;
    TakeAppended(ToLe(id, ID_WIDTH), body);
    LeRoundTrip(id, ID_WIDTH);
    RegistryIsLastWins(types, id);
    ReadAfterWrite(p.kind.schema, p.fields, rest);
    if IsLastWithId(types, id, p.kind) {
      LastIsUnique(types, id, p.kind, RegisterAll(types)[id]);
    }
  }

  /** And nothing else is handled: the bytes are a sent packet of the type that is called, followed by what is
      left unread. A known id whose fields cannot be read, or a missing id, is a short buffer. */
  lemma HandledExactly(made: PointerType, types: seq<PacketType>, s: seq<byte>, p: Packet, rest: seq<byte>)
    ensures var outcome := Dispatch(made, RegisterAll(types), RegisterAll(types), s);
      outcome == Handled(p, rest) <==>
        && made == CLIENT_HANDLER_ASKS && IsLastWithId(types, p.kind.id, p.kind)
        && Sendable(p) && s == PacketBytes(p) + rest
  {
    var outcome := Dispatch(made, RegisterAll(types), RegisterAll(types), s);
    if outcome == Handled(p, rest) {
      var id := FromLe(s[..ID_WIDTH]);
      RegistryIsLastWins(types, id);
      LeIsOnto(s[..ID_WIDTH]);
      WriteAfterRead(p.kind.schema, s[ID_WIDTH..]);
      AppendIsAssociative(ToLe(id, ID_WIDTH), EncodeAll(p.kind.schema, p.fields), rest);
      assert s == s[..ID_WIDTH] + s[ID_WIDTH..];
    } else if Sendable(p) && s == PacketBytes(p) + rest {
      EndToEnd(made, types, p, rest);
    }
  }

  /** How any other buffer ends. */
  lemma OtherOutcomes(made: PointerType, types: seq<PacketType>, s: seq<byte>)
    ensures var outcome := Dispatch(made, RegisterAll(types), RegisterAll(types), s);
      var known := |s| >= ID_WIDTH && exists i :: 0 <= i < |types| && types[i].id == FromLe(s[..ID_WIDTH]);
      && (outcome == NoHandler <==> |s| >= ID_WIDTH && !known)
      && (outcome == BadCast <==> known && made != CLIENT_HANDLER_ASKS)
      && (outcome == ShortBuffer <==> |s| < ID_WIDTH || (known && made == CLIENT_HANDLER_ASKS && !outcome.Handled?))
      && outcome != NoFactory && outcome != WrongType
  {
    if |s| >= ID_WIDTH {
      RegistryIsLastWins(types, FromLe(s[..ID_WIDTH]));
    }
  }

  lemma LastIsUnique(types: seq<PacketType>, id: nat, a: PacketType, b: PacketType)
    requires IsLastWithId(types, id, a) && IsLastWithId(types, id, b)
    ensures a == b
  {
    var i :| 0 <= i < |types| && types[i] == a && a.id == id && forall j | i < j < |types| :: types[j].id != id;
    var k :| 0 <= k < |types| && types[k] == b && b.id == id && forall j | k < j < |types| :: types[j].id != id;
    assert i == k;
  }

  /** A client packet's id is 1, 2, 3, 4, 6 or 8, and selects one type. */
  lemma ClientIds(id: nat)
    ensures (exists i :: 0 <= i < |CLIENT_PACKETS| && CLIENT_PACKETS[i].id == id) <==> id in {1, 2, 3, 4, 6, 8}
    ensures forall i | 0 <= i < |CLIENT_PACKETS| && CLIENT_PACKETS[i].id == id ::
      IsLastWithId(CLIENT_PACKETS, id, CLIENT_PACKETS[i])
  {
    var t := CLIENT_PACKETS;
    assert t[0].id == 1 && t[1].id == 2 && t[2].id == 3 && t[3].id == 4 && t[4].id == 6 && t[5].id == 8;
  }

  /** With the server's own list and the meant pointer type, every packet of a registered type arrives as
      itself, and `Pong` and `ResponseFileStream`, which only go out, are ignored. */
  lemma ClientPacketsArrive(p: Packet, rest: seq<byte>)
    requires Sendable(p)
    ensures var registry := RegisterAll(CLIENT_PACKETS);
      var outcome := Dispatch(CLIENT_HANDLER_ASKS, registry, registry, PacketBytes(p) + rest);
      && (p.kind in CLIENT_PACKETS ==> outcome == Handled(p, rest))
      && (p.kind == PONG || p.kind == RESPONSE_FILE_STREAM ==> outcome == NoHandler)
  {
    EndToEnd(CLIENT_HANDLER_ASKS, CLIENT_PACKETS, p, rest);
    ClientIds(p.kind.id);
  }

  /** As written, MakePacket returns another pointer type than the handlers ask for: no bytes whatsoever
      reach a handler, and exactly the registered ids end in a thrown cast. */
  lemma AsWrittenNothingArrives(types: seq<PacketType>, s: seq<byte>)
    ensures var outcome := Dispatch(MAKE_PACKET_RETURNS, RegisterAll(types), RegisterAll(types), s);
      && !outcome.Handled?
      && (outcome == BadCast <==>
        |s| >= ID_WIDTH && exists i :: 0 <= i < |types| && types[i].id == FromLe(s[..ID_WIDTH]))
  {
    if |s| >= ID_WIDTH {
      RegistryIsLastWins(types, FromLe(s[..ID_WIDTH]));
    }
  }
}
