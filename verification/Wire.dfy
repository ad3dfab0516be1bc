/** Bytes and the fixed-width integers that travel on the wire or lie in an extent. */
module Wire {
  newtype byte = x: int | 0 <= x < 256
  type Bytes = seq<byte>

  const U32 := 0x1_0000_0000
  const U64 := 0x1_0000_0000_0000_0000

  type u32 = x: int | 0 <= x < 0x1_0000_0000
  type u64 = x: int | 0 <= x < 0x1_0000_0000_0000_0000
  type i32 = x: int | -0x8000_0000 <= x < 0x8000_0000

  /** Network order, as the RPC marshaller writes it: most significant byte first. */
  function Be32(x: u32): Bytes {
    var y, z := x / 256, x / 256 / 256;
    [(z / 256) as byte, (z % 256) as byte, (y % 256) as byte, (x % 256) as byte]
  }

  function FromBe32(b0: byte, b1: byte, b2: byte, b3: byte): u32 {
    ((b0 as int * 256 + b1 as int) * 256 + b2 as int) * 256 + b3 as int
  }

  /** Host order of the machines the extent server runs on: the low n bytes, least significant first. */
  function LittleEndian(x: int, n: nat): (b: Bytes)
    ensures |b| == n
    decreases n, x
  {
    if n == 0 then [] else [(x % 256) as byte] + LittleEndian(x / 256, n - 1)
  }

  function FromLittleEndian(b: Bytes): nat
    decreases |b|, b
  {
    if |b| == 0 then 0 else b[0] as int + 256 * FromLittleEndian(b[1..])
  }

  function Pow256(n: nat): (p: nat)
    ensures p >= 1
  {
    if n == 0 then 1 else 256 * Pow256(n - 1)
  }

  lemma PowersOf256()
    ensures Pow256(1) == 0x100 && Pow256(2) == 0x1_0000 && Pow256(4) == U32 && Pow256(8) == U64
  {
    assert Pow256(3) == 0x100_0000;
    assert Pow256(5) == 0x100 * U32;
    assert Pow256(6) == 0x1_0000 * U32;
    assert Pow256(7) == 0x100_0000 * U32;
  }

  /** The bit pattern of a signed 32-bit integer, and back (two's complement). */
  function Pattern(v: i32): u32 {
    if v < 0 then v + U32 else v
  }

  function Signed(x: u32): i32 {
    if x < 0x8000_0000 then x else x - U32
  }

  lemma Be32RoundTrip(x: u32)
    ensures var b := Be32(x); FromBe32(b[0], b[1], b[2], b[3]) == x
  {
  }

  lemma {:induction false} LittleEndianRoundTrip(x: nat, n: nat)
    requires x < Pow256(n)
    ensures FromLittleEndian(LittleEndian(x, n)) == x
    decreases n
  {
    if n > 0 {
      LittleEndianRoundTrip(x / 256, n - 1);
      assert LittleEndian(x, n)[1..] == LittleEndian(x / 256, n - 1);
    }
  }

  /** The byte at place k has the weight 256^k: least significant first. */
  lemma {:induction false} LittleEndianAt(x: nat, n: nat, k: nat)
    requires k < n
    ensures LittleEndian(x, n)[k] as int == x / Pow256(k) % 256
    decreases n
  {
    if k > 0 {
      LittleEndianAt(x / 256, n - 1, k - 1);
      DivTwice(x, Pow256(k - 1));
    }
  }

  lemma DivTwice(x: nat, p: nat)
    requires p > 0
    ensures x / 256 / p == x / (256 * p)
  {
    var q, r := x / 256 / p, x / 256 % p;
    assert x / 256 == q * p + r;
    var low := r * 256 + x % 256;
    assert low < 256 * p;
    assert x == q * (256 * p) + low by {
      assert (q * p) * 256 == q * (256 * p);
    }
    QuotientIs(x, 256 * p, q, low);
  }

  lemma QuotientIs(x: nat, m: nat, q: nat, r: nat)
    requires m > 0 && x == q * m + r && r < m
    ensures x / m == q
  {
    var d := x / m - q;
    assert d * m == r - x % m;
    assert d >= 1 ==> d * m >= m;
    assert d <= -1 ==> d * m <= -1 * m;
  }

  lemma DigitSplit(d: byte, x: nat)
    ensures (d as int + 256 * x) % 256 == d as int && (d as int + 256 * x) / 256 == x
  {
  }

  lemma {:induction false} LittleEndianOfBytes(b: Bytes)
    ensures FromLittleEndian(b) < Pow256(|b|) && LittleEndian(FromLittleEndian(b), |b|) == b
    decreases |b|
  {
    if |b| > 0 {
      LittleEndianOfBytes(b[1..]);
      DigitSplit(b[0], FromLittleEndian(b[1..]));
      assert b == [b[0]] + b[1..];
    }
  }
}
