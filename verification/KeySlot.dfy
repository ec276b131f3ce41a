/** The layout of a procedure frame: packet id, an eight-byte slot for the batch key, payload. */
module KeySlot {
  import opened Bytes
  import opened Keys

  const KEY_WIDTH: nat := 8
  const SLOT: nat := ID_WIDTH
  const HEADER: nat := ID_WIDTH + KEY_WIDTH

  function Layout(id: nat, slot: seq<byte>, payload: seq<byte>): seq<byte> {
    ToLe(id, ID_WIDTH) + slot + payload
  }

  /** The frame with the key's eight bytes stored over the slot. */
  function Patch(frame: seq<byte>, key: Key): (patched: seq<byte>)
    requires |frame| >= HEADER
    ensures |patched| == |frame|
  {
    frame[..SLOT] + ToLe(key, KEY_WIDTH) + frame[HEADER..]
  }

  datatype Parsed = Parsed(id: nat, key: nat, payload: seq<byte>)

  /** How the receiver takes a frame apart. */
  function Parse(frame: seq<byte>): Parsed
    requires |frame| >= HEADER
  {
    Parsed(FromLe(frame[..SLOT]), FromLe(frame[SLOT..HEADER]), frame[HEADER..])
  }

  lemma KeysFillTheSlot()
    ensures Pow256(KEY_WIDTH) == KEY_SPACE
  {
    PowersOf256();
  }

  /** A patched frame, byte for byte: four bytes of id, then the key with its least significant byte first,
      then the payload. */
  lemma PatchedFrameBytes(id: nat, slot: seq<byte>, payload: seq<byte>, key: Key, i: nat)
    requires |slot| == 8
    ensures var frame := Patch(Layout(id, slot, payload), key);
      && |frame| == 12 + |payload| && frame[12..] == payload
      && (i < 4 ==> frame[i] == id / Pow256(i) % 256)
      && (i < 8 ==> frame[4 + i] == key / Pow256(i) % 256)
  {
    if i < 4 {
      LeByte(id, 4, i);
    }
    if i < 8 {
      LeByte(key, 8, i);
    }
  }

  /** Whatever the slot held, a patched frame parses to the id, the key and the payload. */
  lemma PatchedFrameParses(id: nat, slot: seq<byte>, payload: seq<byte>, key: Key)
    requires id < Pow256(ID_WIDTH) && |slot| == KEY_WIDTH
    ensures Parse(Patch(Layout(id, slot, payload), key)) == Parsed(id, key, payload)
  {
    var frame := Layout(id, slot, payload);
    KeysFillTheSlot();
    LeRoundTrip(id, ID_WIDTH);
    LeRoundTrip(key, KEY_WIDTH);
    assert frame[..SLOT] == ToLe(id, ID_WIDTH);
    assert Patch(frame, key)[..SLOT] == ToLe(id, ID_WIDTH);
    assert Patch(frame, key)[SLOT..HEADER] == ToLe(key, KEY_WIDTH);
    assert Patch(frame, key)[HEADER..] == payload;
  }

  /** Patching touches the slot's bytes only. */
  lemma PatchTouchesTheSlotOnly(frame: seq<byte>, key: Key, i: nat)
    requires HEADER <= |frame| && i < |frame| && !(SLOT <= i < HEADER)
    ensures Patch(frame, key)[i] == frame[i]
  {
  }

  function PatchAll(frame: seq<byte>, keys: seq<Key>): (patched: seq<byte>)
    requires |frame| >= HEADER
    ensures |patched| == |frame|
  {
    if keys == [] then frame else Patch(PatchAll(frame, keys[..|keys| - 1]), keys[|keys| - 1])
  }

  lemma PatchTwice(frame: seq<byte>, a: Key, b: Key)
    requires |frame| >= HEADER
    ensures Patch(Patch(frame, a), b) == Patch(frame, b)
  {
    assert Patch(frame, a)[..SLOT] == frame[..SLOT];
    assert Patch(frame, a)[HEADER..] == frame[HEADER..];
  }

  /** Executing a job any number of times leaves it as its last execution alone would. */
  lemma {:induction false} LastPatchWins(frame: seq<byte>, keys: seq<Key>)
    requires |frame| >= HEADER && keys != []
    ensures PatchAll(frame, keys) == Patch(frame, keys[|keys| - 1])
  {
    var n := |keys| - 1;
    if n > 0 {
      LastPatchWins(frame, keys[..n]);
      PatchTwice(frame, keys[n - 1], keys[n]);
    }
  }
}
