/** Bytes and the big-endian integers the wire formats are made of. */
module Bytes {
  type byte = x: int | 0 <= x < 256

  const TWO_32 := 0x1_0000_0000

  /** Four bytes, each one a shift truncated to eight bits. */
  function BE32(n: nat): (b: seq<byte>)
    ensures |b| == 4
  {
    [n / 0x100_0000 % 256, n / 0x1_0000 % 256, n / 0x100 % 256, n % 256]
  }

  function Word32(b: seq<byte>): (n: nat)
    requires |b| >= 4
    ensures n < TWO_32
  {
    (b[0] as int) * 0x100_0000 + (b[1] as int) * 0x1_0000 + (b[2] as int) * 0x100 + b[3]
  }

  lemma Word32OfBE32(n: nat)
    requires n < TWO_32
    ensures Word32(BE32(n)) == n
  {
    var h := n / 0x100;
    var g := n / 0x1_0000;
    assert n == h * 0x100 + n % 0x100 && h == g * 0x100 + h % 0x100;
    assert g == n / 0x100_0000 * 0x100 + g % 0x100;
  }

  /** Eight bytes: the high word of `n`, then the low one. */
  function BE64(n: nat): (b: seq<byte>)
    ensures |b| == 8
  {
    BE32(n / TWO_32) + BE32(n % TWO_32)
  }

  /** Below 2^64 no two counters share an encoding. */
  lemma BE64Injective(m: nat, n: nat)
    requires m < TWO_32 * TWO_32 && n < TWO_32 * TWO_32
    requires BE64(m) == BE64(n)
    ensures m == n
  {
    assert BE64(m)[..4] == BE32(m / TWO_32) && BE64(n)[..4] == BE32(n / TWO_32);
    assert BE64(m)[4..] == BE32(m % TWO_32) && BE64(n)[4..] == BE32(n % TWO_32);
    Word32OfBE32(m / TWO_32);
    Word32OfBE32(n / TWO_32);
    Word32OfBE32(m % TWO_32);
    Word32OfBE32(n % TWO_32);
  }
}
