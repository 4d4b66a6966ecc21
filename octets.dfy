/**
 * The four bytes of a 32-bit IPv4 address or mask, most significant first,
 * and the dotted-quad text both the tunnel provider and the address parser
 * use.
 */
module Octets {
  import opened Strings

  const UInt32Max: int := 0xFFFF_FFFF

  /** Byte `k` of `a` as a bit-vector: bits 24..31 for `k` = 0 down to bits 0..7 for `k` = 3. */
  function OctetBits(a: bv32, k: nat): (r: bv32)
    requires k < 4
    ensures r <= 0xFF
  {
    if k == 0 then (a >> 24) & 0xFF
    else if k == 1 then (a >> 16) & 0xFF
    else if k == 2 then (a >> 8) & 0xFF
    else a & 0xFF
  }

  /** Byte `k` of `a` as a number. */
  function Octet(a: bv32, k: nat): (r: nat)
    requires k < 4
    ensures r <= 255
  {
    OctetBits(a, k) as nat
  }

  /** `c0 << 24 | c1 << 16 | c2 << 8 | c3` on `UInt32` values: bits shifted past bit 31 are lost. */
  function Combine(c0: nat, c1: nat, c2: nat, c3: nat): bv32
    requires c0 <= UInt32Max && c1 <= UInt32Max && c2 <= UInt32Max && c3 <= UInt32Max
  {
    ((c0 as bv32) << 24) | ((c1 as bv32) << 16) | ((c2 as bv32) << 8) | (c3 as bv32)
  }

  /** Four numbers in decimal joined by `.`. */
  function Dotted(c0: nat, c1: nat, c2: nat, c3: nat): string {
    Join([Dec(c0), Dec(c1), Dec(c2), Dec(c3)], '.')
  }

  lemma WidenByte(x: bv8)
    ensures (x as bv32) as nat == x as nat
  {
  }

  /** The pieces are OR-ed, not range-checked: a last piece of 256 sets the bit a third piece of 1 sets. */
  lemma CarryIntoNextByte()
    ensures Combine(0, 0, 0, 256) == Combine(0, 0, 1, 0) == 0x100
  {
    SmallLiterals();
    assert (256 as nat) as bv32 == 0x100;
  }

  lemma SmallLiterals()
    ensures (0 as nat) as bv32 == 0 && (1 as nat) as bv32 == 1
  {
  }

  /** A number below 256 survives the trip into 32 bits and back. */
  lemma SmallToBits(c: nat)
    requires c <= 255
    ensures (c as bv32) as nat == c && (c as bv32) <= 0xFF
  {
    assert (c as bv8) as bv32 == c as bv32;
    WidenByte(c as bv8);
  }

  lemma SmallFromBits(b: bv32)
    requires b <= 0xFF
    ensures (b as nat) as bv32 == b
  {
  }

  lemma BitsOfCombined(b0: bv32, b1: bv32, b2: bv32, b3: bv32)
    requires b0 <= 0xFF && b1 <= 0xFF && b2 <= 0xFF && b3 <= 0xFF
    ensures var a := (b0 << 24) | (b1 << 16) | (b2 << 8) | b3;
      OctetBits(a, 0) == b0 && OctetBits(a, 1) == b1 && OctetBits(a, 2) == b2 && OctetBits(a, 3) == b3
  {
  }

  lemma RecombineBits(a: bv32)
    ensures (OctetBits(a, 0) << 24) | (OctetBits(a, 1) << 16) | (OctetBits(a, 2) << 8) | OctetBits(a, 3) == a
  {
  }

  /** Bytes 0..255 combined read back as the same bytes. */
  lemma {:induction false} CombineOctets(c0: nat, c1: nat, c2: nat, c3: nat)
    requires c0 <= 255 && c1 <= 255 && c2 <= 255 && c3 <= 255
    ensures var a := Combine(c0, c1, c2, c3);
      Octet(a, 0) == c0 && Octet(a, 1) == c1 && Octet(a, 2) == c2 && Octet(a, 3) == c3
  {
    var b0, b1, b2, b3 := c0 as bv32, c1 as bv32, c2 as bv32, c3 as bv32;
    SmallToBits(c0);
    SmallToBits(c1);
    SmallToBits(c2);
    SmallToBits(c3);
    var a := Combine(c0, c1, c2, c3);
    assert a == (b0 << 24) | (b1 << 16) | (b2 << 8) | b3;
    BitsOfCombined(b0, b1, b2, b3);
    OctetIs(a, 0, b0, c0);
    OctetIs(a, 1, b1, c1);
    OctetIs(a, 2, b2, c2);
    OctetIs(a, 3, b3, c3);
  }

  lemma OctetIs(a: bv32, k: nat, b: bv32, c: nat)
    requires k < 4 && OctetBits(a, k) == b && b as nat == c
    ensures Octet(a, k) == c
  {
  }

  lemma CombineOfBits(b0: bv32, b1: bv32, b2: bv32, b3: bv32)
    requires b0 <= 0xFF && b1 <= 0xFF && b2 <= 0xFF && b3 <= 0xFF
    ensures Combine(b0 as nat, b1 as nat, b2 as nat, b3 as nat) == (b0 << 24) | (b1 << 16) | (b2 << 8) | b3
  {
    SmallFromBits(b0);
    SmallFromBits(b1);
    SmallFromBits(b2);
    SmallFromBits(b3);
  }

  /** An address is the combination of its own bytes. */
  lemma RecombineOctets(a: bv32)
    ensures Combine(Octet(a, 0), Octet(a, 1), Octet(a, 2), Octet(a, 3)) == a
  {
    var b0, b1, b2, b3 := OctetBits(a, 0), OctetBits(a, 1), OctetBits(a, 2), OctetBits(a, 3);
    assert Octet(a, 0) == b0 as nat && Octet(a, 1) == b1 as nat;
    assert Octet(a, 2) == b2 as nat && Octet(a, 3) == b3 as nat;
    CombineOfBits(b0, b1, b2, b3);
    RecombineBits(a);
  }
}
