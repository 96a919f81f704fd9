/** Bytes, fixed-width unsigned integers and the reader primitives the codecs are built on
    (utils/byteio, and the standard library's full reads). */
module ByteIO {

  type Byte = x: int | 0 <= x < 0x100
  type Bytes = seq<Byte>
  type U32 = x: int | 0 <= x < 0x1_0000_0000
  type U64 = x: int | 0 <= x < 0x1_0000_0000_0000_0000

  datatype Option<+T> = None | Some(value: T)

  /** uint32 arithmetic wraps around. */
  function Add32(a: U32, b: U32): (c: U32)
    ensures c == (a + b) % 0x1_0000_0000
  {
    if a + b < 0x1_0000_0000 then a + b else a + b - 0x1_0000_0000
  }

  function Sub32(a: U32, b: U32): (c: U32)
    ensures c == (a - b) % 0x1_0000_0000
  {
    if a >= b then a - b else a - b + 0x1_0000_0000
  }

  function Min(a: nat, b: nat): nat { if a <= b then a else b }

  // ---- writers: the low bits of v, most (or least) significant byte first

  function PutU16BE(v: nat): (b: Bytes)
    ensures |b| == 2
  {
    [v / 0x100 % 0x100, v % 0x100]
  }

  function PutU24BE(v: nat): (b: Bytes)
    ensures |b| == 3
  {
    [v / 0x100 / 0x100 % 0x100, v / 0x100 % 0x100, v % 0x100]
  }

  function PutU32BE(v: nat): (b: Bytes)
    ensures |b| == 4
  {
    [v / 0x100 / 0x100 / 0x100 % 0x100, v / 0x100 / 0x100 % 0x100, v / 0x100 % 0x100, v % 0x100]
  }

  function PutU32LE(v: nat): (b: Bytes)
    ensures |b| == 4
  {
    [v % 0x100, v / 0x100 % 0x100, v / 0x100 / 0x100 % 0x100, v / 0x100 / 0x100 / 0x100 % 0x100]
  }

  function PutU64BE(v: U64): (b: Bytes)
    ensures |b| == 8
  {
    PutU32BE(v / 0x1_0000_0000) + PutU32BE(v % 0x1_0000_0000)
  }

  // ---- readers of exactly that many bytes

  function U16BE(b: Bytes): (v: nat)
    requires |b| == 2
    ensures v < 0x1_0000
  {
    b[0] as int * 0x100 + b[1]
  }

  function U24BE(b: Bytes): (v: U32)
    requires |b| == 3
    ensures v < 0x100_0000
  {
    (b[0] as int * 0x100 + b[1]) * 0x100 + b[2]
  }

  function U32BE(b: Bytes): U32
    requires |b| == 4
  {
    ((b[0] as int * 0x100 + b[1]) * 0x100 + b[2]) * 0x100 + b[3]
  }

  function U32LE(b: Bytes): U32
    requires |b| == 4
  {
    ((b[3] as int * 0x100 + b[2]) * 0x100 + b[1]) * 0x100 + b[0]
  }

  function U64BE(b: Bytes): U64
    requires |b| == 8
  {
    U32BE(b[..4]) * 0x1_0000_0000 + U32BE(b[4..])
  }

  // ---- put, then get

  lemma GetPutU16BE(v: nat)
    ensures U16BE(PutU16BE(v)) == v % 0x1_0000
  {
    var h := v / 0x100;
    var r := (h % 0x100) * 0x100 + v % 0x100;
    assert v == (h / 0x100) * 0x1_0000 + r;
    Low16(h / 0x100, r);
  }

  lemma Low16(q: nat, r: nat)
    requires r < 0x1_0000
    ensures (q * 0x1_0000 + r) % 0x1_0000 == r
  {
  }

  lemma Low24(q: nat, r: nat)
    requires r < 0x100_0000
    ensures (q * 0x100_0000 + r) % 0x100_0000 == r
  {
  }

  lemma GetPutU24BE(v: nat)
    ensures U24BE(PutU24BE(v)) == v % 0x100_0000
  {
    var h := v / 0x100;
    var g := h / 0x100;
    var r := ((g % 0x100) * 0x100 + h % 0x100) * 0x100 + v % 0x100;
    assert v == (g / 0x100) * 0x100_0000 + r;
    Low24(g / 0x100, r);
  }

  lemma GetPutU32BE(v: U32)
    ensures U32BE(PutU32BE(v)) == v
  {
  }

  lemma GetPutU32LE(v: U32)
    ensures U32LE(PutU32LE(v)) == v
  {
  }

  lemma GetPutU64BE(v: U64)
    ensures U64BE(PutU64BE(v)) == v
  {
    var hi, lo := v / 0x1_0000_0000, v % 0x1_0000_0000;
    GetPutU32BE(hi);
    GetPutU32BE(lo);
    assert PutU64BE(v)[..4] == PutU32BE(hi) && PutU64BE(v)[4..] == PutU32BE(lo);
  }

  /** Cutting a concatenation at the seam. */
  lemma Seam(x: Bytes, y: Bytes)
    ensures (x + y)[..|x|] == x && (x + y)[|x|..] == y
  {
  }

  lemma SliceOfTake(b: Bytes, n: nat, i: nat, j: nat)
    requires i <= j <= n <= |b|
    ensures b[..n][i..j] == b[i..j]
  {
  }

  lemma SliceOfDrop(b: Bytes, n: nat, i: nat, j: nat)
    requires n <= |b| && i <= j <= |b| - n
    ensures b[n..][i..j] == b[n + i..n + j] && b[n..][i..] == b[n + i..]
  {
  }

  /** A marker byte in front. */
  lemma Marked(m: Byte, x: Bytes, y: Bytes)
    ensures var b := [m] + x + y; b[0] == m && b[1..] == x + y
  {
  }

  lemma Assoc(x: Bytes, y: Bytes, z: Bytes)
    ensures (x + y) + z == x + (y + z)
  {
  }
}
