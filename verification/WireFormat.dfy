/** What goes over the wire, written out in bytes. */
module WireFormat {
  import opened Bytes
  import opened Codec
  import opened PacketDispatch

  // ---------------------------------------------------------------- fields

  /** Numbers: the least significant byte first, negative ones in two's complement. */
  lemma NumberBytes(w: nat, n: int, i: nat)
    requires i < w
    ensures Fits(UInt(w), Num(n)) ==> Encode(UInt(w), Num(n))[i] == n / Pow256(i) % 256
    ensures Fits(SInt(w), Num(n)) ==>
      Encode(SInt(w), Num(n))[i] == (if n < 0 then n + Pow256(w) else n) / Pow256(i) % 256
  {
    if Fits(UInt(w), Num(n)) {
      LeByte(n, w, i);
    }
    if Fits(SInt(w), Num(n)) {
      LeByte(Unsigned(n, w), w, i);
    }
  }

  lemma IntBytes(n: int)
    requires -0x8000_0000 <= n < 0x8000_0000
    ensures Fits(SInt(4), Num(n))
    ensures var m := if n < 0 then n + 0x1_0000_0000 else n;
      Encode(SInt(4), Num(n)) == [m % 256, m / 0x100 % 256, m / 0x1_0000 % 256, m / 0x100_0000]
  {
    PowersOf256();
    var m := if n < 0 then n + 0x1_0000_0000 else n;
    LeFour(m);
    TopByte(m);
  }

  lemma TopByte(m: nat)
    requires m < 0x1_0000_0000
    ensures m / 0x100_0000 % 256 == m / 0x100_0000
  {
  }

  lemma TextBytes(text: seq<byte>)
    requires |text| < 0x1_0000
    ensures Fits(Text, Raw(text)) && Encode(Text, Raw(text)) == [|text| % 256, |text| / 256] + text
  {
    PowersOf256();
    LeTwo(|text|);
  }

  /** Wide strings: the count in front, then two bytes per unit, in order. */
  lemma WideTextBytes(units: seq<nat>, i: nat)
    requires |units| < 0x1_0000 && (forall j | 0 <= j < |units| :: units[j] < 0x1_0000) && i < |units|
    ensures Fits(WideText, Wide(units)) && |Encode(WideText, Wide(units))| == 2 + 2 * |units|
    ensures Encode(WideText, Wide(units))[..2] == [|units| % 256, |units| / 256]
    ensures Encode(WideText, Wide(units))[2 + 2 * i] == units[i] % 256
    ensures Encode(WideText, Wide(units))[3 + 2 * i] == units[i] / 256
  {
    PowersOf256();
    LeTwo(|units|);
    UnitBytes(units, i);
  }

  lemma {:induction false} UnitBytes(units: seq<nat>, i: nat)
    requires (forall j | 0 <= j < |units| :: units[j] < 0x1_0000 == Pow256(WCHAR_WIDTH)) && i < |units|
    ensures |EncodeUnits(units)| == 2 * |units|
    ensures EncodeUnits(units)[2 * i] == units[i] % 256 && EncodeUnits(units)[2 * i + 1] == units[i] / 256
  {
    LeTwo(units[0]);
    if |units| > 1 {
      UnitBytes(units[1..], if i == 0 then 0 else i - 1);
    }
  }

  /** Lists: the count in front, then the elements in order. */
  lemma ListBytes(elem: Type, items: seq<Value>)
    requires |items| < 0x1_0000 && forall i | 0 <= i < |items| :: Fits(elem, items[i])
    ensures Fits(ListOf(elem), Items(items))
    ensures Encode(ListOf(elem), Items(items)) == [|items| % 256, |items| / 256] + EncodeItems(elem, items)
    ensures items != [] ==>
      EncodeItems(elem, items) == EncodeItems(elem, items[..|items| - 1]) + Encode(elem, items[|items| - 1])
    ensures EncodeItems(elem, []) == []
  {
    PowersOf256();
    LeTwo(|items|);
    LastItemLast(elem, items);
  }

  lemma {:induction false} LastItemLast(elem: Type, items: seq<Value>)
    requires forall i | 0 <= i < |items| :: Fits(elem, items[i])
    ensures items != [] ==>
      EncodeItems(elem, items) == EncodeItems(elem, items[..|items| - 1]) + Encode(elem, items[|items| - 1])
  {
    if |items| > 1 {
      LastItemLast(elem, items[1..]);
      assert items[1..][..|items| - 2] == items[..|items| - 1][1..];
      var last := items[|items| - 1];
      AppendIsAssociative(Encode(elem, items[0]), EncodeItems(elem, items[1..|items| - 1]), Encode(elem, last));
    }
  }

  /** A packet's fields follow each other in the order its class lists them. */
  lemma OneField(t: Type, v: Value)
    requires Fits(t, v)
    ensures FitAll([t], [v]) && EncodeAll([t], [v]) == Encode(t, v)
  {
    assert EncodeAll([t], [v]) == Encode(t, v) + EncodeAll([], []);
  }

  lemma TwoFields(t: Type, v: Value, u: Type, w: Value)
    requires Fits(t, v) && Fits(u, w)
    ensures FitAll([t, u], [v, w]) && EncodeAll([t, u], [v, w]) == Encode(t, v) + Encode(u, w)
  {
    assert [t, u][1..] == [u] && [v, w][1..] == [w];
    OneField(u, w);
  }

  // ---------------------------------------------------------------- the packets a client may send

  /** The handler for the class `name` gets these fields, and the rest stays unread. */
  ghost predicate Arrives(s: seq<byte>, name: string, fields: seq<Value>, rest: seq<byte>) {
    var outcome := Dispatch(CLIENT_HANDLER_ASKS, RegisterAll(CLIENT_PACKETS), RegisterAll(CLIENT_PACKETS), s);
    outcome.Handled? && outcome.packet.kind.name == name && outcome.packet.fields == fields && outcome.rest == rest
  }

  lemma Arrival(p: Packet, rest: seq<byte>)
    requires Sendable(p) && p.kind in CLIENT_PACKETS
    ensures Arrives(PacketBytes(p) + rest, p.kind.name, p.fields, rest)
  {
    ClientPacketsArrive(p, rest);
  }

  lemma SmallId(id: nat)
    requires id < 256
    ensures ToLe(id, ID_WIDTH) == [id, 0, 0, 0] && id < Pow256(ID_WIDTH)
  {
    PowersOf256();
    LeFour(id);
  }

  lemma TestStringOnTheWire(text: seq<byte>, rest: seq<byte>)
    requires |text| < 0x1_0000
    ensures var s := [1, 0, 0, 0] + ([|text| % 256, |text| / 256] + text);
      && PacketBytes(Packet(TEST_STRING, [Raw(text)])) == s
      && Arrives(s + rest, "TestStringPacket", [Raw(text)], rest)
  {
    SmallId(1);
    TextBytes(text);
    OneField(Text, Raw(text));
    Arrival(Packet(TEST_STRING, [Raw(text)]), rest);
  }

  lemma EchoStringOnTheWire(text: seq<byte>, rest: seq<byte>)
    requires |text| == 30
    ensures PacketBytes(Packet(ECHO_STRING, [Raw(text)])) == [2, 0, 0, 0] + text
    ensures Arrives([2, 0, 0, 0] + text + rest, "EchoStringPacket", [Raw(text)], rest)
  {
    SmallId(2);
    OneField(Chars(30), Raw(text));
    Arrival(Packet(ECHO_STRING, [Raw(text)]), rest);
  }

  /** The int first, in four bytes, then the wide string. */
  lemma TestProcedureOnTheWire(n: int, units: seq<nat>, rest: seq<byte>)
    requires -0x8000_0000 <= n < 0x8000_0000
    requires |units| < 0x1_0000 && forall j | 0 <= j < |units| :: units[j] < 0x1_0000
    ensures Fits(WideText, Wide(units))
    ensures var m := if n < 0 then n + 0x1_0000_0000 else n;
      var s := [3, 0, 0, 0]
        + ([m % 256, m / 0x100 % 256, m / 0x1_0000 % 256, m / 0x100_0000] + Encode(WideText, Wide(units)));
      && PacketBytes(Packet(TEST_PROCEDURE, [Num(n), Wide(units)])) == s
      && Arrives(s + rest, "TestProcedurePacket", [Num(n), Wide(units)], rest)
  {
    SmallId(3);
    PowersOf256();
    IntBytes(n);
    TwoFields(SInt(4), Num(n), WideText, Wide(units));
    Arrival(Packet(TEST_PROCEDURE, [Num(n), Wide(units)]), rest);
  }

  /** Its eight bytes are the number's, by `NumberBytes`. */
  lemma SelectTest2OnTheWire(n: int, rest: seq<byte>)
    requires -0x8000_0000_0000_0000 <= n < 0x8000_0000_0000_0000
    ensures Fits(SInt(8), Num(n)) && |Encode(SInt(8), Num(n))| == 8
    ensures PacketBytes(Packet(SELECT_TEST_2, [Num(n)])) == [4, 0, 0, 0] + Encode(SInt(8), Num(n))
    ensures Arrives([4, 0, 0, 0] + Encode(SInt(8), Num(n)) + rest, "SelectTest2ProcedurePacket", [Num(n)], rest)
  {
    SmallId(4);
    PowersOf256();
    OneField(SInt(8), Num(n));
    Arrival(Packet(SELECT_TEST_2, [Num(n)]), rest);
  }

  lemma EmptyPacketsOnTheWire(rest: seq<byte>)
    ensures PacketBytes(Packet(PING, [])) == [6, 0, 0, 0] && Arrives([6, 0, 0, 0] + rest, "Ping", [], rest)
    ensures PacketBytes(Packet(REQUEST_FILE_STREAM, [])) == [8, 0, 0, 0]
    ensures Arrives([8, 0, 0, 0] + rest, "RequestFileStream", [], rest)
  {
    SmallId(6);
    SmallId(8);
    assert PacketBytes(Packet(PING, [])) == [6, 0, 0, 0] + [];
    assert PacketBytes(Packet(REQUEST_FILE_STREAM, [])) == [8, 0, 0, 0] + [];
    Arrival(Packet(PING, []), rest);
    Arrival(Packet(REQUEST_FILE_STREAM, []), rest);
  }

  /** What the server only sends, and that it does not take these back. */
  lemma OutgoingOnTheWire(stream: seq<byte>, rest: seq<byte>)
    requires |stream| == 4096
    ensures PacketBytes(Packet(PONG, [])) == [7, 0, 0, 0]
    ensures PacketBytes(Packet(RESPONSE_FILE_STREAM, [Raw(stream)])) == [9, 0, 0, 0] + stream
    ensures forall id: byte | id !in {1, 2, 3, 4, 6, 8} ::
      Dispatch(CLIENT_HANDLER_ASKS, RegisterAll(CLIENT_PACKETS), RegisterAll(CLIENT_PACKETS), [id, 0, 0, 0] + rest)
      == NoHandler
  {
    SmallId(7);
    SmallId(9);
    assert PacketBytes(Packet(PONG, [])) == [7, 0, 0, 0] + [];
    OneField(Chars(4096), Raw(stream));
    forall id: byte | id !in {1, 2, 3, 4, 6, 8}
      ensures NoHandler ==
        Dispatch(CLIENT_HANDLER_ASKS, RegisterAll(CLIENT_PACKETS), RegisterAll(CLIENT_PACKETS), [id, 0, 0, 0] + rest)
    {
      var s := [id, 0, 0, 0] + rest;
      SmallId(id);
      LeRoundTrip(id, ID_WIDTH);
      assert s[..ID_WIDTH] == [id, 0, 0, 0];
      ClientIds(id);
      OtherOutcomes(CLIENT_HANDLER_ASKS, CLIENT_PACKETS, s);
    }
  }
}
