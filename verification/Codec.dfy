/** The field codec: what `buffer << param` appends and `buffer >> param` takes back, and the variadic
    writers and readers that apply it to a packet's fields in order.

    The buffer library is not part of this repository. Its operators are assumed to write integers and
    fixed arrays as they lie in memory and strings and lists with a 16-bit element count in front. */
module Codec {
  import opened Wrappers
  import opened Bytes

  const COUNT_WIDTH: nat := 2
  const WCHAR_WIDTH: nat := 2

  datatype Type =
    | UInt(width: nat)
    | SInt(width: nat)
    | Chars(length: nat)
    | Text
    | WideText
    | ListOf(elem: Type)

  datatype Value =
    | Num(n: int)
    | Raw(bytes: seq<byte>)
    | Wide(units: seq<nat>)
    | Items(items: seq<Value>)

  /** The values a field of this type can hold, short enough for the count in front. */
  predicate Fits(t: Type, v: Value)
    decreases v
  {
    match t
    case UInt(w) => v.Num? && 0 <= v.n < Pow256(w)
    case SInt(w) => v.Num? && 0 - Pow256(w) <= 2 * v.n < Pow256(w)
    case Chars(n) => v.Raw? && |v.bytes| == n
    case Text => v.Raw? && |v.bytes| < Pow256(COUNT_WIDTH)
    case WideText =>
      && v.Wide? && |v.units| < Pow256(COUNT_WIDTH)
      && forall i | 0 <= i < |v.units| :: v.units[i] < Pow256(WCHAR_WIDTH)
    case ListOf(elem) =>
      && v.Items? && |v.items| < Pow256(COUNT_WIDTH)
      && forall i | 0 <= i < |v.items| :: Fits(elem, v.items[i])
  }

  /** Two's complement. */
  function Unsigned(n: int, width: nat): nat
    requires 0 - Pow256(width) <= 2 * n < Pow256(width)
  {
    if n < 0 then n + Pow256(width) else n
  }

  function Signed(n: nat, width: nat): int {
    if 2 * n < Pow256(width) then n else n - Pow256(width)
  }

  // ---------------------------------------------------------------- one field

  function Encode(t: Type, v: Value): seq<byte>
    requires Fits(t, v)
    decreases v, 0
  {
    match t
    case UInt(w) => ToLe(v.n, w)
    case SInt(w) => ToLe(Unsigned(v.n, w), w)
    case Chars(_) => v.bytes
    case Text => ToLe(|v.bytes|, COUNT_WIDTH) + v.bytes
    case WideText => ToLe(|v.units|, COUNT_WIDTH) + EncodeUnits(v.units)
    case ListOf(elem) => ToLe(|v.items|, COUNT_WIDTH) + EncodeItems(elem, v.items)
  }

  function EncodeUnits(units: seq<nat>): seq<byte>
    requires forall i | 0 <= i < |units| :: units[i] < Pow256(WCHAR_WIDTH)
  {
    if units == [] then [] else ToLe(units[0], WCHAR_WIDTH) + EncodeUnits(units[1..])
  }

  function EncodeItems(elem: Type, items: seq<Value>): seq<byte>
    requires forall i | 0 <= i < |items| :: Fits(elem, items[i])
    decreases items, 1
  {
    if items == [] then [] else Encode(elem, items[0]) + EncodeItems(elem, items[1..])
  }

  datatype Decoded<+T> = Decoded(value: T, rest: seq<byte>)

  /** Takes the first `n` bytes; a buffer that is too short yields nothing. */
  function Take(s: seq<byte>, n: nat): Option<Decoded<seq<byte>>> {
    if |s| < n then None else Some(Decoded(s[..n], s[n..]))
  }

  function Decode(t: Type, s: seq<byte>): Option<Decoded<Value>>
    decreases t, 0, 0
  {
    match t
    case UInt(w) =>
      (match Take(s, w) case None => None case Some(d) => Some(Decoded(Num(FromLe(d.value)), d.rest)))
    case SInt(w) =>
      (match Take(s, w) case None => None case Some(d) => Some(Decoded(Num(Signed(FromLe(d.value), w)), d.rest)))
    case Chars(n) =>
      (match Take(s, n) case None => None case Some(d) => Some(Decoded(Raw(d.value), d.rest)))
    case Text =>
      (match Take(s, COUNT_WIDTH) case None => None case Some(c) =>
        match Take(c.rest, FromLe(c.value)) case None => None case Some(d) => Some(Decoded(Raw(d.value), d.rest)))
    case WideText =>
      (match Take(s, COUNT_WIDTH) case None => None case Some(c) =>
        match DecodeUnits(FromLe(c.value), c.rest)
        case None => None
        case Some(d) => Some(Decoded(Wide(d.value), d.rest)))
    case ListOf(elem) =>
      (match Take(s, COUNT_WIDTH) case None => None case Some(c) =>
        match DecodeItems(elem, FromLe(c.value), c.rest)
        case None => None
        case Some(d) => Some(Decoded(Items(d.value), d.rest)))
  }

  function DecodeUnits(n: nat, s: seq<byte>): Option<Decoded<seq<nat>>> {
    if n == 0 then Some(Decoded([], s))
    else
      match Take(s, WCHAR_WIDTH)
      case None => None
      case Some(u) =>
        match DecodeUnits(n - 1, u.rest)
        case None => None
        case Some(d) => Some(Decoded([FromLe(u.value)] + d.value, d.rest))
  }

  function DecodeItems(elem: Type, n: nat, s: seq<byte>): Option<Decoded<seq<Value>>>
    decreases elem, 1, n
  {
    if n == 0 then Some(Decoded([], s))
    else
      match Decode(elem, s)
      case None => None
      case Some(v) =>
        match DecodeItems(elem, n - 1, v.rest)
        case None => None
        case Some(d) => Some(Decoded([v.value] + d.value, d.rest))
  }

  // ---------------------------------------------------------------- one field, there and back

  lemma AppendIsAssociative(a: seq<byte>, b: seq<byte>, c: seq<byte>)
    ensures a + b + c == a + (b + c)
  {
  }

  lemma TakeAppended(s: seq<byte>, rest: seq<byte>)
    ensures Take(s + rest, |s|) == Some(Decoded(s, rest))
  {
  }

  /** Reading what was written gives the value back and leaves exactly the bytes behind it. */
  lemma {:induction false} DecodeEncode(t: Type, v: Value, rest: seq<byte>)
    requires Fits(t, v)
    ensures Decode(t, Encode(t, v) + rest) == Some(Decoded(v, rest))
    decreases v, 0
  {
    match t
    case UInt(w) =>
      LeRoundTrip(v.n, w);
      TakeAppended(ToLe(v.n, w), rest);
    case SInt(w) =>
      LeRoundTrip(Unsigned(v.n, w), w);
      TakeAppended(ToLe(Unsigned(v.n, w), w), rest);
    case Chars(_) =>
      TakeAppended(v.bytes, rest);
    case Text =>
      CountRoundTrip(|v.bytes|, v.bytes, rest);
      TakeAppended(v.bytes, rest);
    case WideText =>
      CountRoundTrip(|v.units|, EncodeUnits(v.units), rest);
      UnitsRoundTrip(v.units, rest);
    case ListOf(elem) =>
      CountRoundTrip(|v.items|, EncodeItems(elem, v.items), rest);
      ItemsRoundTrip(elem, v.items, rest);
  }

  lemma CountRoundTrip(count: nat, body: seq<byte>, rest: seq<byte>)
    requires count < Pow256(COUNT_WIDTH)
    ensures Take(ToLe(count, COUNT_WIDTH) + body + rest, COUNT_WIDTH)
      == Some(Decoded(ToLe(count, COUNT_WIDTH), body + rest))
    ensures FromLe(ToLe(count, COUNT_WIDTH)) == count
  {
    LeRoundTrip(count, COUNT_WIDTH);
    AppendIsAssociative(ToLe(count, COUNT_WIDTH), body, rest);
    TakeAppended(ToLe(count, COUNT_WIDTH), body + rest);
  }

  lemma {:induction false} UnitsRoundTrip(units: seq<nat>, rest: seq<byte>)
    requires forall i | 0 <= i < |units| :: units[i] < Pow256(WCHAR_WIDTH)
    ensures DecodeUnits(|units|, EncodeUnits(units) + rest) == Some(Decoded(units, rest))
  {
    if units == [] {
      assert EncodeUnits(units) + rest == rest;
    } else {
      var first := ToLe(units[0], WCHAR_WIDTH);
      LeRoundTrip(units[0], WCHAR_WIDTH);
      UnitsRoundTrip(units[1..], rest);
      AppendIsAssociative(first, EncodeUnits(units[1..]), rest);
      TakeAppended(first, EncodeUnits(units[1..]) + rest);
      assert units == [units[0]] + units[1..];
    }
  }

  lemma {:induction false} ItemsRoundTrip(elem: Type, items: seq<Value>, rest: seq<byte>)
    requires forall i | 0 <= i < |items| :: Fits(elem, items[i])
    ensures DecodeItems(elem, |items|, EncodeItems(elem, items) + rest) == Some(Decoded(items, rest))
    decreases items, 1
  {
    if items == [] {
      assert EncodeItems(elem, items) + rest == rest;
    } else {
      var tail := EncodeItems(elem, items[1..]) + rest;
      ItemsRoundTrip(elem, items[1..], rest);
      DecodeEncode(elem, items[0], tail);
      AppendIsAssociative(Encode(elem, items[0]), EncodeItems(elem, items[1..]), rest);
      assert items == [items[0]] + items[1..];
    }
  }

  // ---------------------------------------------------------------- what the reader accepts

  /** The reader accepts nothing but encodings: any successful read splits the buffer into the encoding
      of the value it returns and the bytes it leaves. */
  lemma {:induction false} EncodeDecode(t: Type, s: seq<byte>)
    requires Decode(t, s).Some?
    ensures var d := Decode(t, s).value; Fits(t, d.value) && s == Encode(t, d.value) + d.rest
    decreases t, 0, 0
  {
    match t
    case UInt(w) => LeIsOnto(s[..w]);
    case SInt(w) => LeIsOnto(s[..w]);
    case Chars(_) =>
    case Text =>
      LeIsOnto(s[..COUNT_WIDTH]);
    case WideText =>
      LeIsOnto(s[..COUNT_WIDTH]);
      UnitsOnto(FromLe(s[..COUNT_WIDTH]), s[COUNT_WIDTH..]);
    case ListOf(elem) =>
      LeIsOnto(s[..COUNT_WIDTH]);
      ItemsOnto(elem, FromLe(s[..COUNT_WIDTH]), s[COUNT_WIDTH..]);
  }

  lemma {:induction false} UnitsOnto(n: nat, s: seq<byte>)
    requires DecodeUnits(n, s).Some?
    ensures var d := DecodeUnits(n, s).value;
      && |d.value| == n && (forall i | 0 <= i < n :: d.value[i] < Pow256(WCHAR_WIDTH))
      && s == EncodeUnits(d.value) + d.rest
  {
    if n > 0 {
      LeIsOnto(s[..WCHAR_WIDTH]);
      UnitsOnto(n - 1, s[WCHAR_WIDTH..]);
      var d := DecodeUnits(n, s).value;
      assert d.value[1..] == DecodeUnits(n - 1, s[WCHAR_WIDTH..]).value.value;
    }
  }

  lemma {:induction false} ItemsOnto(elem: Type, n: nat, s: seq<byte>)
    requires DecodeItems(elem, n, s).Some?
    ensures var d := DecodeItems(elem, n, s).value;
      && |d.value| == n && (forall i | 0 <= i < n :: Fits(elem, d.value[i]))
      && s == EncodeItems(elem, d.value) + d.rest
    decreases elem, 1, n
  {
    if n > 0 {
      EncodeDecode(elem, s);
      var v := Decode(elem, s).value;
      ItemsOnto(elem, n - 1, v.rest);
      var tail := DecodeItems(elem, n - 1, v.rest).value;
      AppendIsAssociative(Encode(elem, v.value), EncodeItems(elem, tail.value), tail.rest);
      assert ([v.value] + tail.value)[1..] == tail.value;
    }
  }

  // ---------------------------------------------------------------- the parameter pack

  ghost predicate FitAll(types: seq<Type>, values: seq<Value>) {
    |types| == |values| && forall i | 0 <= i < |types| :: Fits(types[i], values[i])
  }

  /** What the variadic writer appends for a packet's fields. */
  ghost function EncodeAll(types: seq<Type>, values: seq<Value>): seq<byte>
    requires FitAll(types, values)
  {
    if types == [] then [] else Encode(types[0], values[0]) + EncodeAll(types[1..], values[1..])
  }

  /** What the variadic reader takes. */
  function DecodeAll(types: seq<Type>, s: seq<byte>): Option<Decoded<seq<Value>>> {
    if types == [] then Some(Decoded([], s))
    else
      match Decode(types[0], s)
      case None => None
      case Some(v) =>
        match DecodeAll(types[1..], v.rest)
        case None => None
        case Some(d) => Some(Decoded([v.value] + d.value, d.rest))
  }

  /** For every schema, all field values and any trailing bytes: reading after writing gives the fields
      back and leaves exactly the trailing bytes. */
  lemma {:induction false} ReadAfterWrite(types: seq<Type>, values: seq<Value>, rest: seq<byte>)
    requires FitAll(types, values)
    ensures DecodeAll(types, EncodeAll(types, values) + rest) == Some(Decoded(values, rest))
    decreases |types|
  {
    if types == [] {
      assert EncodeAll(types, values) + rest == rest;
    } else {
      var tail := EncodeAll(types[1..], values[1..]) + rest;
      DecodeEncode(types[0], values[0], tail);
      ReadAfterWrite(types[1..], values[1..], rest);
      AppendIsAssociative(Encode(types[0], values[0]), EncodeAll(types[1..], values[1..]), rest);
      assert values == [values[0]] + values[1..];
    }
  }

  /** And the other way: whatever a schema's reader accepts is a written packet followed by a rest. */
  lemma {:induction false} WriteAfterRead(types: seq<Type>, s: seq<byte>)
    requires DecodeAll(types, s).Some?
    ensures var d := DecodeAll(types, s).value;
      FitAll(types, d.value) && s == EncodeAll(types, d.value) + d.rest
    decreases |types|
  {
    if types != [] {
      EncodeDecode(types[0], s);
      var v := Decode(types[0], s).value;
      WriteAfterRead(types[1..], v.rest);
      var d := DecodeAll(types, s).value;
      assert d.value[1..] == DecodeAll(types[1..], v.rest).value.value;
    }
  }

  /** No packet's encoding is a proper prefix of, or equal to, another packet's of the same schema. */
  lemma EncodingIsPrefixFree(types: seq<Type>, a: seq<Value>, b: seq<Value>)
    requires FitAll(types, a) && FitAll(types, b)
    requires EncodeAll(types, a) <= EncodeAll(types, b)
    ensures a == b
  {
    var rest := EncodeAll(types, b)[|EncodeAll(types, a)|..];
    ReadAfterWrite(types, a, rest);
    ReadAfterWrite(types, b, []);
    assert EncodeAll(types, a) + rest == EncodeAll(types, b) + [];
  }
}
