/** Bytes and little-endian numbers, the layout integers have on the wire. */
module Bytes {
  const UINT64_SPACE: int := 0x1_0000_0000_0000_0000

  /** A packet id is a 32-bit number. */
  const ID_WIDTH: nat := 4

  type byte = b: int | 0 <= b < 256

  function Pow256(width: nat): (p: nat)
    ensures p > 0
  {
    if width == 0 then 1 else 256 * Pow256(width - 1)
  }

  function ToLe(v: nat, width: nat): (s: seq<byte>)
    ensures |s| == width
  {
    if width == 0 then [] else [v % 256] + ToLe(v / 256, width - 1)
  }

  lemma DivideTwice(v: nat, p: nat)
    requires p > 0
    ensures v / 256 / p == v / (256 * p)
  {
    var q, a := v / 256, v / 256 / p;
    assert v == (256 * p) * a + (256 * (q % p) + v % 256);
    QuotientIs(v, 256 * p, a, 256 * (q % p) + v % 256);
  }

  lemma QuotientIs(v: nat, d: nat, a: nat, r: nat)
    requires v == d * a + r && r < d
    ensures v / d == a
  {
    MultiplesAreApart(d, a, v / d);
    MultiplesAreApart(d, v / d, a);
  }

  lemma {:induction false} MultiplesAreApart(d: nat, x: nat, y: nat)
    ensures x < y ==> d * x + d <= d * y
    decreases y
  {
    if x < y {
      MultiplesAreApart(d, x, y - 1);
      assert d * y == d * (y - 1) + d;
    }
  }

  /** The least significant byte comes first. */
  lemma {:induction false} LeByte(v: nat, width: nat, i: nat)
    requires i < width
    ensures ToLe(v, width)[i] == v / Pow256(i) % 256
    decreases width
  {
    if i > 0 {
      LeByte(v / 256, width - 1, i - 1);
      DivideTwice(v, Pow256(i - 1));
    }
  }

  /** The widths in use, written out. */
  lemma LeTwo(v: nat)
    requires v < 0x1_0000
    ensures ToLe(v, 2) == [v % 256, v / 256]
  {
    assert ToLe(v, 2) == [v % 256] + ([v / 256 % 256] + ToLe(v / 256 / 256, 0));
  }

  lemma LeFour(v: nat)
    ensures ToLe(v, 4) == [v % 256, v / 0x100 % 256, v / 0x1_0000 % 256, v / 0x100_0000 % 256]
  {
    LeByte(v, 4, 0);
    LeByte(v, 4, 1);
    LeByte(v, 4, 2);
    LeByte(v, 4, 3);
    PowersOf256();
  }

  lemma PowersOf256()
    ensures Pow256(0) == 1 && Pow256(1) == 0x100 && Pow256(2) == 0x1_0000 && Pow256(3) == 0x100_0000
    ensures Pow256(4) == 0x1_0000_0000 && Pow256(8) == 0x1_0000_0000_0000_0000
  {
    assert Pow256(4) == 256 * Pow256(3);
    assert Pow256(8) == 256 * 256 * 256 * 256 * Pow256(4);
  }

  function FromLe(s: seq<byte>): nat {
    if s == [] then 0 else s[0] + 256 * FromLe(s[1..])
  }

  lemma {:induction false} LeRoundTrip(v: nat, width: nat)
    requires v < Pow256(width)
    ensures FromLe(ToLe(v, width)) == v
    decreases width
  {
    if width > 0 {
      LeRoundTrip(v / 256, width - 1);
      assert ToLe(v, width)[1..] == ToLe(v / 256, width - 1);
    }
  }

  lemma {:induction false} LeIsOnto(s: seq<byte>)
    ensures FromLe(s) < Pow256(|s|) && ToLe(FromLe(s), |s|) == s
    decreases |s|
  {
    if s != [] {
      LeIsOnto(s[1..]);
      assert FromLe(s) % 256 == s[0] && FromLe(s) / 256 == FromLe(s[1..]);
      assert s == [s[0]] + s[1..];
    }
  }
}
