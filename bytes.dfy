/**
 * Byte-level vocabulary shared by the WAV container, its parser and the writer:
 * fixed-width unsigned integers, the little-endian layout produced by
 * `withUnsafeBytes` of a `.littleEndian` value (and read back by `load(as:)` on
 * a little-endian host), and the ASCII bytes of the four chunk marks.
 */
module Bytes {

  datatype Option<T> = None | Some(value: T)

  type Byte = b: int | 0 <= b < 0x100
  type UInt16 = x: int | 0 <= x < 0x1_0000
  type UInt32 = x: int | 0 <= x < 0x1_0000_0000

  /** 256 to the power n: the number of values n bytes can hold. */
  function Pow256(n: nat): (p: nat)
    ensures p > 0
  {
    if n == 0 then 1 else 256 * Pow256(n - 1)
  }

  /** The n low-order bytes of x, least significant first. */
  function LittleEndian(x: nat, n: nat): (r: seq<Byte>)
    ensures |r| == n
  {
    if n == 0 then [] else [x % 256] + LittleEndian(x / 256, n - 1)
  }

  /** The unsigned value of bytes stored least significant first. */
  function FromLittleEndian(s: seq<Byte>): (x: nat)
    ensures x < Pow256(|s|)
  {
    if s == [] then 0 else s[0] + 256 * FromLittleEndian(s[1..])
  }

  /** Splitting off the low byte of a value that is reduced modulo 256 * p. */
  lemma ModSplit(x: nat, p: nat)
    requires p > 0
    ensures x % (256 * p) == x % 256 + 256 * ((x / 256) % p)
  {
    var q, a := x / 256, x % 256;
    var k, b := q / p, q % p;
    assert x == 256 * q + a;
    assert q == p * k + b;
    assert x == (256 * p) * k + (256 * b + a);
    assert 0 <= 256 * b + a < 256 * p;
    ModOfDecomposition(x, 256 * p, k, 256 * b + a);
  }

  /** A remainder is determined by any decomposition x == m * k + r with 0 <= r < m. */
  lemma ModOfDecomposition(x: nat, m: nat, k: nat, r: nat)
    requires m > 0 && r < m && x == m * k + r
    ensures x % m == r && x / m == k
  {
    var k', r' := x / m, x % m;
    assert m * k' + r' == m * k + r;
    if k' > k {
      assert m * k' >= m * (k + 1) by { MultiplyMonotone(m, k + 1, k'); }
    } else if k' < k {
      assert m * k >= m * (k' + 1) by { MultiplyMonotone(m, k' + 1, k); }
    }
  }

  lemma MultiplyMonotone(m: nat, a: nat, b: nat)
    requires a <= b
    ensures m * a <= m * b
  {
  }

  /** Decoding an n-byte encoding gives back the value reduced to n bytes. */
  lemma {:induction false} DecodeEncode(x: nat, n: nat)
    ensures FromLittleEndian(LittleEndian(x, n)) == x % Pow256(n)
  {
    if n > 0 {
      DecodeEncode(x / 256, n - 1);
      ModSplit(x, Pow256(n - 1));
      assert LittleEndian(x, n)[1..] == LittleEndian(x / 256, n - 1);
    }
  }

  /** A value that fits in n bytes survives encoding and decoding unchanged. */
  lemma DecodeEncodeInRange(x: nat, n: nat)
    requires x < Pow256(n)
    ensures FromLittleEndian(LittleEndian(x, n)) == x
  {
    DecodeEncode(x, n);
  }

  /** Re-encoding decoded bytes at the same width reproduces them. */
  lemma {:induction false} EncodeDecode(s: seq<Byte>)
    ensures LittleEndian(FromLittleEndian(s), |s|) == s
  {
    if s != [] {
      var x := FromLittleEndian(s);
      EncodeDecode(s[1..]);
      assert x % 256 == s[0] && x / 256 == FromLittleEndian(s[1..]);
    }
  }

  /** Only the low n bytes of a value reach its n-byte encoding. */
  lemma EncodeLowBytes(x: nat, n: nat)
    ensures LittleEndian(x % Pow256(n), n) == LittleEndian(x, n)
  {
    DecodeEncode(x, n);
    EncodeDecode(LittleEndian(x, n));
  }

  /** The first k bytes of a wider little-endian encoding are the k-byte encoding. */
  lemma {:induction false} EncodePrefix(x: nat, n: nat, k: nat)
    requires k <= n
    ensures LittleEndian(x, n)[..k] == LittleEndian(x, k)
  {
    if k > 0 {
      EncodePrefix(x / 256, n - 1, k - 1);
    }
  }

  lemma Pow256Values()
    ensures Pow256(2) == 0x1_0000 && Pow256(3) == 0x100_0000 && Pow256(4) == 0x1_0000_0000
  {
  }

  /** Unsigned value of the 2 bytes at offset i. */
  function U16At(data: seq<Byte>, i: nat): (x: UInt16)
    requires i + 2 <= |data|
    ensures LittleEndian(x, 2) == data[i..i + 2]
  {
    Pow256Values();
    EncodeDecode(data[i..i + 2]);
    FromLittleEndian(data[i..i + 2])
  }

  /** Unsigned value of the 4 bytes at offset i. */
  function U32At(data: seq<Byte>, i: nat): (x: UInt32)
    requires i + 4 <= |data|
    ensures LittleEndian(x, 4) == data[i..i + 4]
  {
    Pow256Values();
    EncodeDecode(data[i..i + 4]);
    FromLittleEndian(data[i..i + 4])
  }

  predicate IsAscii(s: string) {
    forall i :: 0 <= i < |s| ==> s[i] < 128 as char
  }

  /** UTF-8 bytes of an ASCII string: one byte per character, its code. */
  function Ascii(s: string): (r: seq<Byte>)
    requires IsAscii(s)
    ensures |r| == |s|
  {
    seq(|s|, i requires 0 <= i < |s| => s[i] as int)
  }
}
