/**
  64-bit integers as the store keeps them: eight bytes, two's complement,
  little-endian, wrapping on overflow.
*/
module Int64 {
  import opened Framing

  const TWO_63: int := 0x8000_0000_0000_0000
  const TWO_64: int := 0x1_0000_0000_0000_0000

  type U64 = n: nat | n < TWO_64

  function Pow256(len: nat): (p: nat)
    ensures p > 0
  {
    if len == 0 then 1 else 256 * Pow256(len - 1)
  }

  function EncodeLE(n: nat, len: nat): (b: Bytes)
    ensures |b| == len
    decreases len
  {
    if len == 0 then [] else [n % 256] + EncodeLE(n / 256, len - 1)
  }

  function DecodeLE(b: Bytes): (n: nat) {
    if b == [] then 0
    else
      var low: int := b[0];
      low + 256 * DecodeLE(b[1..])
  }

  lemma {:induction false} EncodeThenDecode(n: nat, len: nat)
    requires n < Pow256(len)
    ensures DecodeLE(EncodeLE(n, len)) == n
    decreases len
  {
    if len > 0 {
      EncodeThenDecode(n / 256, len - 1);
      assert EncodeLE(n, len)[1..] == EncodeLE(n / 256, len - 1);
    }
  }

  lemma {:induction false} DecodeBound(b: Bytes)
    ensures DecodeLE(b) < Pow256(|b|)
  {
    if b != [] {
      DecodeBound(b[1..]);
    }
  }

  lemma Pow256Of8()
    ensures Pow256(8) == TWO_64
  {
    assert Pow256(2) == 0x1_0000;
    assert Pow256(4) == 0x1_0000_0000;
    assert Pow256(6) == 0x1_0000_0000_0000;
  }

  // The unsigned bits of an eight-byte value.
  function Bits(b: Bytes): (n: U64)
    requires |b| == 8
  {
    DecodeBound(b);
    Pow256Of8();
    DecodeLE(b)
  }

  function FromBits(n: U64): (b: Bytes)
    ensures |b| == 8 && Bits(b) == n
  {
    Pow256Of8();
    EncodeThenDecode(n, 8);
    EncodeLE(n, 8)
  }

  // The signed number that unsigned bits stand for.
  function Signed(bits: U64): int {
    if bits < TWO_63 then bits else bits - TWO_64
  }

  // The signed 64-bit number congruent to z.
  function Wrap(z: int): (r: int)
    ensures -TWO_63 <= r < TWO_63 && (r - z) % TWO_64 == 0
  {
    Signed(z % TWO_64)
  }

  // uint64_t addition
  function AddBits(a: U64, b: U64): (r: U64)
    ensures Signed(r) == Wrap(Signed(a) + Signed(b))
  {
    (a + b) % TWO_64
  }

  // Adding after wrapping is adding before wrapping.
  lemma WrapAdd(x: int, y: int)
    ensures Wrap(Wrap(x) + y) == Wrap(x + y)
  {
  }
}
